/** The disruption budget of the rolling scheduler, over one pass and over whole runs. */
module Budget {
  import opened Model
  import opened PlanEntry
  import opened Store
  import opened Scheduler
  import PlannerDrain
  import MachineDrain
  import PlanSecret
  import PlanChange

  /** A machine is disrupted while its plan is not the applied one or it is somewhere in the drain handshake. */
  predicate Disturbed(s: Secret) {
    s.plan != s.appliedPlan || PlannerDrain.InDrain(s.annotations)
  }

  ghost function DisturbedSet(c: Cluster, who: set<string>): set<string> {
    set m | m in who && m in c.secrets && Disturbed(c.secrets[m])
  }

  /** r was prepared from the secret as it is in c. */
  ghost predicate Current(c: Cluster, r: Reconcilable) {
    && r.name in c.secrets && r.name in c.machines
    && !SecretToNode(c.secrets[r.name]).Unreadable?
    && r.node == NodeFrom(SecretToNode(c.secrets[r.name]))
    && (r.node.Some? ==>
          && r.change == (r.node.value.plan != r.desired)
          && r.minorChange == PlanChange.MinorChange(r.node.value.plan, r.desired))
    && (r.node.None? ==> !r.change && !r.minorChange)
  }

  ghost predicate AllCurrent(c: Cluster, rs: seq<Reconcilable>) {
    && (forall i :: 0 <= i < |rs| ==> Current(c, rs[i]))
    && (forall i, j :: 0 <= i < j < |rs| ==> rs[i].name != rs[j].name)
  }

  /** An available machine with a major change that is let through whatever the budget says. */
  predicate Exempt(c: Cluster, r: Reconcilable) {
    && r.node.Some? && r.change && !r.minorChange && !IsUnavailable(c, r)
    && (r.node.value.failed || NeverHealthy(r.node.value))
  }

  /** The exempt ones, and the minor changes, among the machines under watch. */
  function ExemptCount(c: Cluster, rs: seq<Reconcilable>, who: set<string>): nat {
    if rs == [] then 0 else (if rs[0].name in who && Exempt(c, rs[0]) then 1 else 0) + ExemptCount(c, rs[1..], who)
  }

  function MinorCount(rs: seq<Reconcilable>, who: set<string>): nat {
    if rs == [] then 0 else (if rs[0].name in who && rs[0].minorChange then 1 else 0) + MinorCount(rs[1..], who)
  }

  function Max(a: int, b: int): int {
    if a < b then b else a
  }

  // ---------------------------------------------------------------- one visit

  /** A machine let through is counted unless it counted already, and one that is not counted stays as it was. */
  lemma DisruptedBudget(t: Tally, r: Reconcilable, options: DrainOptions)
    requires r.name in t.cluster.secrets && r.name in t.cluster.machines && r.node.Some?
    ensures var t' := Disrupted(t, r, options);
      t'.unavailable == if IsUnavailable(t.cluster, r) then t.unavailable else t.unavailable + 1
  {
    hide PlannerDrain.Drain, Quiet, PlanUpdate, Reload, SecretToNode;
  }

  lemma SettledBudget(t: Tally, r: Reconcilable, g: Settings)
    requires r.name in t.cluster.secrets && r.name in t.cluster.machines
    ensures var t' := Settled(t, r, g);
      t'.unavailable == t.unavailable && t'.cluster.secrets[r.name].plan == t.cluster.secrets[r.name].plan
    ensures var s, s' := t.cluster.secrets[r.name], Settled(t, r, g).cluster.secrets[r.name];
      s'.appliedPlan == s.appliedPlan && (Disturbed(s') ==> Disturbed(s))
  {
    hide SecretToNode, Matches;
  }

  /** A visit disturbs at most its own machine; a machine that was undisturbed is paid for by the counter, unless its
      change is minor, and the counter grows only within the budget or for an exempt machine. */
  lemma VisitBudget(t: Tally, r: Reconcilable, concurrency: int, options: DrainOptions, g: Settings)
    requires r.name in t.cluster.secrets && r.name in t.cluster.machines && t.err == Nil && concurrency != 0
    ensures var t' := Visited(t, r, concurrency, options, g);
      && OnlyTouches(t.cluster, t'.cluster, {r.name})
      && t.unavailable <= t'.unavailable <= t.unavailable + 1
      && (t'.unavailable > t.unavailable ==> t.unavailable < concurrency || Exempt(t.cluster, r))
      && (Current(t.cluster, r) && r.node.Some? &&
          !Disturbed(t.cluster.secrets[r.name]) && Disturbed(t'.cluster.secrets[r.name]) ==>
            r.minorChange || t'.unavailable == t.unavailable + 1)
  {
    hide Disrupted, Settled, Quiet, PlanChange.MinorChange;
    var s := Summarized(t, r);
    var o := s.(outOfSync := s.outOfSync + [r.name]);
    if r.node.Some? {
      DisruptedBudget(o, r, options);
    }
    SettledBudget(s, r, g);
  }

  lemma CurrentFrame(c: Cluster, c': Cluster, rs: seq<Reconcilable>, m: string)
    requires AllCurrent(c, rs) && OnlyTouches(c, c', {m})
    requires forall i :: 0 <= i < |rs| ==> rs[i].name != m
    ensures AllCurrent(c', rs)
  {
  }

  lemma {:induction false} ExemptFrame(c: Cluster, c': Cluster, rs: seq<Reconcilable>, m: string, who: set<string>)
    requires OnlyTouches(c, c', {m})
    requires forall i :: 0 <= i < |rs| ==> rs[i].name != m && rs[i].name in c.secrets
    ensures ExemptCount(c', rs, who) == ExemptCount(c, rs, who)
  {
    if rs != [] {
      assert forall i :: 0 <= i < |rs[1..]| ==> rs[1..][i] == rs[i + 1];
      ExemptFrame(c, c', rs[1..], m, who);
      assert rs[0].name != m;
    }
  }

  lemma DisturbedFrame(c: Cluster, c': Cluster, m: string, who: set<string>)
    requires OnlyTouches(c, c', {m})
    ensures DisturbedSet(c', who) <= DisturbedSet(c, who) + {m}
    ensures |DisturbedSet(c', who)| <= |DisturbedSet(c, who)| + 1
    ensures m !in who || m !in c.secrets || !Disturbed(c'.secrets[m]) || Disturbed(c.secrets[m]) ==>
      |DisturbedSet(c', who)| <= |DisturbedSet(c, who)|
  {
    var before, after := DisturbedSet(c, who), DisturbedSet(c', who);
    Cardinality(after, before + {m});
    if m !in who || m !in c.secrets || !Disturbed(c'.secrets[m]) || Disturbed(c.secrets[m]) {
      assert after <= before;
      Cardinality(after, before);
    }
  }

  lemma {:induction false} Cardinality(a: set<string>, b: set<string>)
    requires a <= b
    ensures |a| <= |b|
  {
    if a != {} {
      var x :| x in a;
      Cardinality(a - {x}, b - {x});
    }
  }

  // ---------------------------------------------------------------- one loop

  ghost predicate Distinct(rs: seq<Reconcilable>) {
    forall i, j :: 0 <= i < j < |rs| ==> rs[i].name != rs[j].name
  }

  /** m is not among the machines of the loop. */
  ghost predicate Outside(rs: seq<Reconcilable>, m: string) {
    forall i :: 0 <= i < |rs| ==> rs[i].name != m
  }

  /** A machine that is not in the loop keeps its secret. */
  lemma {:induction false} LoopFrame(t: Tally, rs: seq<Reconcilable>, concurrency: int, options: DrainOptions,
                                     g: Settings, m: string)
    requires Known(t.cluster, rs)
    ensures var c' := Scheduled(t, rs, concurrency, options, g).cluster;
      && c'.machines == t.cluster.machines && c'.nodes == t.cluster.nodes
      && c'.secrets.Keys == t.cluster.secrets.Keys
      && (m in t.cluster.secrets && Outside(rs, m) ==> c'.secrets[m] == t.cluster.secrets[m])
    decreases |rs|
  {
    hide Visited;
    if rs != [] && t.err == Nil {
      assert forall i :: 0 <= i < |rs[1..]| ==> rs[1..][i] == rs[i + 1];
      LoopFrame(Visited(t, rs[0], concurrency, options, g), rs[1..], concurrency, options, g, m);
    }
  }

  /** The machines under watch that the loop comes to have plans and were prepared from their secrets as they are. */
  ghost predicate Watched(c: Cluster, rs: seq<Reconcilable>, who: set<string>) {
    forall i :: 0 <= i < |rs| && rs[i].name in who ==> Current(c, rs[i]) && rs[i].node.Some?
  }

  lemma AllCurrentTail(c: Cluster, rs: seq<Reconcilable>)
    requires AllCurrent(c, rs) && rs != []
    ensures AllCurrent(c, rs[1..]) && Current(c, rs[0])
    ensures forall i :: 0 <= i < |rs[1..]| ==> rs[1..][i] == rs[i + 1] && rs[1..][i].name != rs[0].name
  {
    assert forall i :: 0 <= i < |rs[1..]| ==> rs[1..][i] == rs[i + 1];
  }

  lemma WatchedTail(c: Cluster, c': Cluster, rs: seq<Reconcilable>, who: set<string>)
    requires rs != [] && Watched(c, rs, who) && Distinct(rs) && Known(c, rs) && OnlyTouches(c, c', {rs[0].name})
    ensures Watched(c', rs[1..], who) && Distinct(rs[1..]) && Known(c', rs[1..])
    ensures forall i :: 0 <= i < |rs[1..]| ==> rs[1..][i] == rs[i + 1] && rs[1..][i].name != rs[0].name
    ensures ExemptCount(c', rs[1..], who) == ExemptCount(c, rs[1..], who)
  {
    hide SecretToNode, PlanChange.MinorChange, IsUnavailable;
    assert forall i :: 0 <= i < |rs[1..]| ==> rs[1..][i] == rs[i + 1];
    ExemptFrame(c, c', rs[1..], rs[0].name, who);
  }

  /** Over the loop, the disturbed machines among who stay within the larger of their number and the limit, but for
      minor changes and exempt machines, as long as the counter covers them at first, up to spent ones. The counter
      itself ends within the larger of its start and the limit, but for exempt machines. */
  lemma {:induction false} LoopBudget(t: Tally, rs: seq<Reconcilable>, concurrency: int, options: DrainOptions,
                                      g: Settings, who: set<string>, spent: nat)
    requires Known(t.cluster, rs) && Distinct(rs) && Watched(t.cluster, rs, who) && concurrency != 0
    requires |DisturbedSet(t.cluster, who)| <= t.unavailable + spent
    ensures var t' := Scheduled(t, rs, concurrency, options, g);
      && |DisturbedSet(t'.cluster, who)| <=
           Max(|DisturbedSet(t.cluster, who)|, concurrency + spent) + MinorCount(rs, who) +
           ExemptCount(t.cluster, rs, who)
      && t.unavailable <= t'.unavailable
      && ((forall i :: 0 <= i < |rs| ==> rs[i].name in who) ==>
            t'.unavailable <= Max(t.unavailable, concurrency) + ExemptCount(t.cluster, rs, who))
    decreases |rs|
  {
    hide Visited, Current, Exempt, Disturbed;
    if rs != [] && t.err == Nil {
      var r, rest := rs[0], rs[1..];
      VisitBudget(t, r, concurrency, options, g);
      var t1 := Visited(t, r, concurrency, options, g);
      WatchedTail(t.cluster, t1.cluster, rs, who);
      DisturbedFrame(t.cluster, t1.cluster, r.name, who);
      LoopBudget(t1, rest, concurrency, options, g, who, if r.name in who && r.minorChange then spent + 1 else spent);
    }
  }

  /** The machines that were available and are let through, in the order of the loop. */
  ghost function LetThrough(t: Tally, rs: seq<Reconcilable>, concurrency: int, options: DrainOptions, g: Settings)
    : set<string>
    requires Known(t.cluster, rs)
    decreases |rs|
  {
    if rs == [] || t.err != Nil then {} else
    var r := rs[0];
    assert forall i :: 0 <= i < |rs[1..]| ==> rs[1..][i] == rs[i + 1];
    var more := LetThrough(Visited(t, r, concurrency, options, g), rs[1..], concurrency, options, g);
    if r.node.Some? && r.change && !r.minorChange && !IsUnavailable(t.cluster, r) &&
       Admitted(t.cluster, r, concurrency, t.unavailable)
    then {r.name} + more else more
  }

  /** Within a pass the counter is the number of machines that were unavailable at first plus the number of available
      machines that were let through. */
  lemma {:induction false} CounterCounts(t: Tally, rs: seq<Reconcilable>, concurrency: int, options: DrainOptions,
                                         g: Settings)
    requires AllCurrent(t.cluster, rs) && Known(t.cluster, rs)
    ensures Scheduled(t, rs, concurrency, options, g).unavailable ==
            t.unavailable + |LetThrough(t, rs, concurrency, options, g)|
    ensures forall m :: m in LetThrough(t, rs, concurrency, options, g) ==> exists i :: 0 <= i < |rs| && rs[i].name == m
    decreases |rs|
  {
    hide Visited, Current, IsUnavailable, Admitted;
    if rs != [] && t.err == Nil {
      var r, rest := rs[0], rs[1..];
      AllCurrentTail(t.cluster, rs);
      var t1 := Visited(t, r, concurrency, options, g);
      CurrentFrame(t.cluster, t1.cluster, rest, r.name);
      VisitCounts(t, r, concurrency, options, g);
      CounterCounts(t1, rest, concurrency, options, g);
      var more := LetThrough(t1, rest, concurrency, options, g);
      assert r.name !in more;
      forall m | m in LetThrough(t, rs, concurrency, options, g) ensures exists i :: 0 <= i < |rs| && rs[i].name == m {
        if m == r.name {
          assert rs[0].name == m;
        } else {
          var i :| 0 <= i < |rest| && rest[i].name == m;
          assert rs[i + 1].name == m;
        }
      }
    }
  }

  lemma VisitCounts(t: Tally, r: Reconcilable, concurrency: int, options: DrainOptions, g: Settings)
    requires Current(t.cluster, r) && t.err == Nil
    ensures Visited(t, r, concurrency, options, g).unavailable ==
      if r.node.Some? && r.change && !r.minorChange && !IsUnavailable(t.cluster, r) &&
         Admitted(t.cluster, r, concurrency, t.unavailable) then t.unavailable + 1 else t.unavailable
  {
    hide Disrupted, Settled, Quiet, PlanChange.MinorChange, IsUnavailable;
    var s := Summarized(t, r);
    var o := s.(outOfSync := s.outOfSync + [r.name]);
    if r.node.Some? {
      DisruptedBudget(o, r, options);
    }
    SettledBudget(s, r, g);
  }

  /** The counter starts at no less than the number of disturbed machines of the tier. */
  lemma {:induction false} CountCovers(c: Cluster, rs: seq<Reconcilable>, who: set<string>)
    requires Known(c, rs) && Distinct(rs) && Watched(c, rs, who)
    requires forall m :: m in who ==> !Outside(rs, m)
    ensures |DisturbedSet(c, who)| <= UnavailableCount(c, rs)
  {
    hide Current, Disturbed, IsUnavailable;
    if rs == [] {
      assert forall m :: m in who ==> Outside(rs, m);
      assert DisturbedSet(c, who) == {};
    } else {
      var r, rest := rs[0], rs[1..];
      WatchedTail(c, c, rs, who);
      var who' := who - {r.name};
      forall m | m in who' ensures !Outside(rest, m) {
        var i :| 0 <= i < |rs| && rs[i].name == m;
        assert rest[i - 1] == rs[i];
      }
      CountCovers(c, rest, who');
      if r.name in who && Disturbed(c.secrets[r.name]) {
        DisturbedIsUnavailable(c, r);
        Cardinality(DisturbedSet(c, who), DisturbedSet(c, who') + {r.name});
      } else {
        Cardinality(DisturbedSet(c, who), DisturbedSet(c, who'));
      }
    }
  }

  lemma DisturbedIsUnavailable(c: Cluster, r: Reconcilable)
    requires Current(c, r) && r.node.Some? && Disturbed(c.secrets[r.name])
    ensures IsUnavailable(c, r)
  {
  }

  // ---------------------------------------------------------------- one pass

  /** What a pass of the tier gathers, or nothing when it stops before acting. */
  ghost function Batch(c: Cluster, tier: Tier, g: Settings): seq<Reconcilable>
    requires Listed(c, Collected(c, tier.filter))
  {
    var rs := Gathered(c, Collected(c, tier.filter), tier.exclude, tier.joinURL, g);
    if rs.Good? then rs.value else []
  }

  /** The machines under watch that a pass lets through beside the budget. */
  ghost function Extras(c: Cluster, tier: Tier, g: Settings, who: set<string>): nat
    requires Listed(c, Collected(c, tier.filter))
  {
    MinorCount(Batch(c, tier, g), who) + ExemptCount(c, Batch(c, tier, g), who)
  }

  /** The pass works under a limit of at least one machine and at most k. */
  ghost predicate Limited(c: Cluster, tier: Tier, g: Settings, k: int)
    requires Listed(c, Collected(c, tier.filter))
  {
    var allowed := Allowed(tier.maxUnavailable, Counted(c, Batch(c, tier, g), tier.exclude));
    allowed.Some? ==> allowed.value != 0 && allowed.value <= k
  }

  /** The tier plans for m. */
  predicate Inside(c: Cluster, tier: Tier, m: string) {
    m in c.machines && Matches(c, tier.filter, m) && !Matches(c, tier.exclude, m)
  }

  /** The machines under watch that the tier does not plan for. */
  ghost function Beside(c: Cluster, tier: Tier, who: set<string>): set<string> {
    set m | m in who && !Inside(c, tier, m)
  }

  /** The snapshot has the machine with the plan that its secret holds. */
  ghost predicate Fresh(c: Cluster, m: string) {
    && m in c.machines && m in c.secrets && m in c.nodes
    && SecretToNode(c.secrets[m]) == Readable(c.nodes[m])
  }

  /** Each of these machines that the tier plans for has a plan. */
  ghost predicate Members(c: Cluster, tier: Tier, who: set<string>) {
    forall m :: m in who && Inside(c, tier, m) ==> Fresh(c, m)
  }

  lemma BatchDistinct(c: Cluster, tier: Tier, g: Settings)
    requires Listed(c, Collected(c, tier.filter))
    ensures var rs := Batch(c, tier, g);
      Distinct(rs) && Known(c, rs) && forall i :: 0 <= i < |rs| ==>
        rs[i] == MakeReconcilable(c, rs[i].name, rs[i].desired, rs[i].joinedURL)
  {
    hide Matches, Gathered, MakeReconcilable;
    var names := Collected(c, tier.filter);
    KeptElements(c, names, tier.exclude);
    GatheredKept(c, names, tier.exclude, tier.joinURL, g);
    GatheredKnown(c, names, tier.exclude, tier.joinURL, g);
  }

  /** The batch is made of exactly the machines that the tier plans for, unless it could not be gathered. */
  lemma BatchInside(c: Cluster, tier: Tier, g: Settings, m: string)
    requires Listed(c, Collected(c, tier.filter))
    ensures var rs := Batch(c, tier, g);
      && (!Outside(rs, m) ==> Inside(c, tier, m))
      && (Gathered(c, Collected(c, tier.filter), tier.exclude, tier.joinURL, g).Good? && Inside(c, tier, m) ==>
            !Outside(rs, m))
  {
    hide Matches, Gathered;
    var names := Collected(c, tier.filter);
    var rs, kept := Batch(c, tier, g), Kept(c, names, tier.exclude);
    KeptElements(c, names, tier.exclude);
    GatheredKept(c, names, tier.exclude, tier.joinURL, g);
    if !Outside(rs, m) {
      var i :| 0 <= i < |rs| && rs[i].name == m;
      assert kept[i] in kept;
    }
    if Gathered(c, names, tier.exclude, tier.joinURL, g).Good? && Inside(c, tier, m) {
      assert m in kept;
      var i :| 0 <= i < |kept| && kept[i] == m;
      assert rs[i].name == m;
    }
  }

  lemma MadeCurrent(c: Cluster, m: string, plan: NodePlan, joinedTo: string)
    requires Fresh(c, m)
    ensures var r := MakeReconcilable(c, m, plan, joinedTo);
      Current(c, r) && r.node.Some?
  {
    hide SecretToNode, PlanChange.MinorChange;
  }

  lemma BatchWatched(c: Cluster, tier: Tier, g: Settings, who: set<string>)
    requires Listed(c, Collected(c, tier.filter)) && Members(c, tier, who)
    ensures Watched(c, Batch(c, tier, g), who)
  {
    hide Fresh, Current, Inside, MakeReconcilable;
    var rs := Batch(c, tier, g);
    BatchDistinct(c, tier, g);
    forall i | 0 <= i < |rs| && rs[i].name in who ensures Current(c, rs[i]) && rs[i].node.Some? {
      BatchInside(c, tier, g, rs[i].name);
      MadeCurrent(c, rs[i].name, rs[i].desired, rs[i].joinedURL);
    }
  }

  lemma LoadedFresh(c: Cluster, m: string)
    requires Loaded(c) && m in c.nodes
    ensures Fresh(c, m)
  {
    hide SecretToNode;
    assert NodeOf(c, m) == NodeFrom(SecretToNode(c.secrets[m]));
  }

  lemma BatchCurrent(c: Cluster, tier: Tier, g: Settings)
    requires Loaded(c) && Listed(c, Collected(c, tier.filter))
    ensures var rs := Batch(c, tier, g);
      AllCurrent(c, rs) && Known(c, rs)
  {
    hide SecretToNode, PlanChange.MinorChange, Matches;
    BatchDistinct(c, tier, g);
  }

  /** A pass leaves the machines alone that its tier does not plan for. */
  lemma BesideKept(c: Cluster, tier: Tier, g: Settings, m: string)
    requires Listed(c, Collected(c, tier.filter))
    ensures var c' := Reconciled(c, tier, g).cluster;
      && c'.machines == c.machines && c'.nodes == c.nodes && c'.secrets.Keys == c.secrets.Keys
      && (m in c.secrets && !Inside(c, tier, m) ==> c'.secrets[m] == c.secrets[m])
  {
    hide Scheduled, Gathered, Inside;
    BatchDistinct(c, tier, g);
    BatchInside(c, tier, g, m);
    var rs := Batch(c, tier, g);
    if Gathered(c, Collected(c, tier.filter), tier.exclude, tier.joinURL, g).Good? {
      var allowed := Allowed(tier.maxUnavailable, Counted(c, rs, tier.exclude));
      if allowed.Some? {
        LoopFrame(StartTally(c, UnavailableCount(c, rs)), rs, allowed.value, tier.options, g, m);
      }
    }
  }

  lemma DisturbedSame(c: Cluster, c': Cluster, who: set<string>)
    requires c'.secrets.Keys == c.secrets.Keys
    requires forall m :: m in who && m in c.secrets ==> c'.secrets[m] == c.secrets[m]
    ensures DisturbedSet(c', who) == DisturbedSet(c, who)
  {
  }

  lemma DisturbedSplit(c: Cluster, who: set<string>, some: set<string>)
    requires some <= who
    ensures |DisturbedSet(c, who)| == |DisturbedSet(c, some)| + |DisturbedSet(c, who - some)|
  {
    hide Disturbed;
    assert DisturbedSet(c, who) == DisturbedSet(c, some) + DisturbedSet(c, who - some);
  }

  lemma {:induction false} CountsWithin(c: Cluster, rs: seq<Reconcilable>, some: set<string>, who: set<string>)
    requires some <= who
    ensures MinorCount(rs, some) <= MinorCount(rs, who) && ExemptCount(c, rs, some) <= ExemptCount(c, rs, who)
  {
    hide Exempt;
    if rs != [] { CountsWithin(c, rs[1..], some, who); }
  }

  /** One pass over a tier that plans for all of these machines. */
  lemma InsideBudget(c: Cluster, tier: Tier, g: Settings, k: int, who: set<string>)
    requires Listed(c, Collected(c, tier.filter)) && Limited(c, tier, g, k) && Members(c, tier, who)
    requires forall m :: m in who ==> Inside(c, tier, m)
    ensures |DisturbedSet(Reconciled(c, tier, g).cluster, who)| <=
            Max(|DisturbedSet(c, who)|, k) + Extras(c, tier, g, who)
  {
    hide Scheduled, Gathered, Inside, Fresh, Disturbed;
    BatchDistinct(c, tier, g);
    BatchWatched(c, tier, g, who);
    var rs := Batch(c, tier, g);
    if Gathered(c, Collected(c, tier.filter), tier.exclude, tier.joinURL, g).Good? {
      var allowed := Allowed(tier.maxUnavailable, Counted(c, rs, tier.exclude));
      if allowed.Some? {
        forall m | m in who ensures !Outside(rs, m) {
          BatchInside(c, tier, g, m);
        }
        CountCovers(c, rs, who);
        LoopBudget(StartTally(c, UnavailableCount(c, rs)), rs, allowed.value, tier.options, g, who, 0);
      }
    }
  }

  /** One pass: each tier counts its own machines only. The disturbed machines among any that are watched stay within
      the larger of their number and the limit, to which those beside the tier are added, but for minor changes and
      exempt machines. */
  lemma PassBudget(c: Cluster, tier: Tier, g: Settings, k: int, who: set<string>)
    requires Listed(c, Collected(c, tier.filter)) && Limited(c, tier, g, k) && Members(c, tier, who)
    ensures |DisturbedSet(Reconciled(c, tier, g).cluster, who)| <=
            Max(|DisturbedSet(c, who)|, k + |DisturbedSet(c, Beside(c, tier, who))|) + Extras(c, tier, g, who)
  {
    hide Reconciled, Inside, Fresh, Disturbed, Batch;
    var beside := Beside(c, tier, who);
    var c' := Reconciled(c, tier, g).cluster;
    BesideKept(c, tier, g, "");
    forall m | m in beside && m in c.secrets ensures c'.secrets[m] == c.secrets[m] {
      BesideKept(c, tier, g, m);
    }
    DisturbedSame(c, c', beside);
    InsideBudget(c, tier, g, k, who - beside);
    DisturbedSplit(c, who, beside);
    DisturbedSplit(c', who, beside);
    CountsWithin(c, Batch(c, tier, g), who - beside, who);
  }

  /** A pass over a tier that plans for none of these machines. */
  lemma OutsideBudget(c: Cluster, tier: Tier, g: Settings, who: set<string>)
    requires Listed(c, Collected(c, tier.filter)) && Beside(c, tier, who) == who
    ensures DisturbedSet(Reconciled(c, tier, g).cluster, who) == DisturbedSet(c, who)
  {
    hide Reconciled, Inside, Disturbed;
    var c' := Reconciled(c, tier, g).cluster;
    BesideKept(c, tier, g, "");
    forall m | m in who && m in c.secrets ensures c'.secrets[m] == c.secrets[m] {
      assert m in Beside(c, tier, who);
      BesideKept(c, tier, g, m);
    }
    DisturbedSame(c, c', who);
  }

  // ---------------------------------------------------------------- runs

  /** The events of a run: passes of the planner over the tier, and everything that happens around them. */
  datatype Event =
    | Pass(tier: Tier, g: Settings)
    | AgentReports(m: string)
    | ControllerRuns(m: string, now: string)
    | DrainerRuns(m: string, nodeRef: Option<string>, node: MachineDrain.NodeState, io: MachineDrain.IO)
    | HookAnswers(m: string, hook: string, answer: Mark)

  /** c with the snapshot taken anew. */
  function Refreshed(c: Cluster): Cluster {
    c.(nodes := map m | m in c.secrets && SecretToNode(c.secrets[m]).Readable? :: SecretToNode(c.secrets[m]).node)
  }

  ghost predicate AgentReport(s: Secret, s': Secret) {
    s' == s.(appliedChecksum := s'.appliedChecksum, failedChecksum := s'.failedChecksum,
             failureCount := s'.failureCount, probeStatuses := s'.probeStatuses,
             output := s'.output, periodicOutput := s'.periodicOutput)
  }

  /** c goes to c' by the event; a pass whose secrets do not all load does nothing. */
  ghost predicate Step(c: Cluster, e: Event, c': Cluster) {
    match e
    case Pass(tier, g) =>
      var loaded := Refreshed(c);
      && Listed(loaded, Collected(loaded, tier.filter))
      && c' == if Loaded(loaded) then Reconciled(loaded, tier, g).cluster else c
    case AgentReports(m) =>
      m in c.secrets && m in c'.secrets && AgentReport(c.secrets[m], c'.secrets[m]) && c' == Put(c, m, c'.secrets[m])
    case ControllerRuns(m, now) =>
      m in c.secrets && c' == Put(c, m, PlanSecret.Handled(c.secrets[m], now).secret)
    case DrainerRuns(m, nodeRef, node, io) =>
      m in c.secrets && c' == Put(c, m, c.secrets[m].(annotations :=
        MachineDrain.Handle(c.secrets[m].annotations, nodeRef, node, io).annotations))
    case HookAnswers(m, hook, answer) =>
      m in c.secrets && c' == Put(c, m, c.secrets[m].(annotations :=
        c.secrets[m].annotations.(hooks := c.secrets[m].annotations.hooks[hook := answer])))
  }

  /** The tier plans for all of these machines, which have plans already. */
  ghost predicate AllInside(c: Cluster, tier: Tier, who: set<string>) {
    forall m :: m in who ==> Inside(c, tier, m) && m in c.nodes
  }

  /** What is asked of a pass of the run: its tier plans for the machines under watch, under the limit, or for none of
      them, under whatever limit. */
  ghost predicate Regular(c: Cluster, e: Event, k: int, who: set<string>) {
    e.Pass? ==>
      var loaded := Refreshed(c);
      && Listed(loaded, Collected(loaded, e.tier.filter))
      && (Loaded(loaded) ==>
            || (AllInside(loaded, e.tier, who) && Limited(loaded, e.tier, e.g, k))
            || Beside(loaded, e.tier, who) == who)
  }

  ghost function EventExtras(c: Cluster, e: Event, who: set<string>): nat {
    if !e.Pass? then 0 else
    var loaded := Refreshed(c);
    if Listed(loaded, Collected(loaded, e.tier.filter)) && Loaded(loaded) then Extras(loaded, e.tier, e.g, who) else 0
  }

  ghost function TotalExtras(cs: seq<Cluster>, es: seq<Event>, who: set<string>): nat
    requires |cs| == |es| + 1
  {
    if es == [] then 0
    else TotalExtras(cs[..|es|], es[..|es| - 1], who) + EventExtras(cs[|es| - 1], es[|es| - 1], who)
  }

  /** None of the other parties ever disturbs a machine that was not disturbed. */
  lemma OthersNeverDisturb(c: Cluster, e: Event, c': Cluster, who: set<string>)
    requires !e.Pass? && Step(c, e, c')
    ensures |DisturbedSet(c', who)| <= |DisturbedSet(c, who)|
  {
    DisturbedFrame(c, c', e.m, who);
  }

  lemma StepBudget(c: Cluster, e: Event, c': Cluster, k: int, who: set<string>)
    requires Step(c, e, c') && Regular(c, e, k, who)
    ensures |DisturbedSet(c', who)| <= Max(|DisturbedSet(c, who)|, k) + EventExtras(c, e, who)
  {
    hide Disturbed, Reconciled, Inside, SecretToNode, Batch;
    if e.Pass? {
      var loaded := Refreshed(c);
      DisturbedSame(c, loaded, who);
      if Loaded(loaded) {
        if Beside(loaded, e.tier, who) == who {
          OutsideBudget(loaded, e.tier, e.g, who);
        } else {
          forall m | m in who && Inside(loaded, e.tier, m) ensures Fresh(loaded, m) {
            LoadedFresh(loaded, m);
          }
          InsideBudget(loaded, e.tier, e.g, k, who);
        }
      }
    } else {
      OthersNeverDisturb(c, e, c', who);
    }
  }

  /** Over every run, under any interleaving and any desired plans, the number of disturbed machines of the tier never
      exceeds the larger of its first value and the limit, but for the extras that the passes let through. */
  lemma {:induction false} RunBudget(cs: seq<Cluster>, es: seq<Event>, k: int, who: set<string>)
    requires |cs| == |es| + 1
    requires forall i :: 0 <= i < |es| ==> Step(cs[i], es[i], cs[i + 1]) && Regular(cs[i], es[i], k, who)
    ensures |DisturbedSet(cs[|es|], who)| <= Max(|DisturbedSet(cs[0], who)|, k) + TotalExtras(cs, es, who)
    decreases |es|
  {
    if es != [] {
      var n := |es| - 1;
      var cs', es' := cs[..|es|], es[..n];
      forall i | 0 <= i < |es'| ensures Step(cs'[i], es'[i], cs'[i + 1]) && Regular(cs'[i], es'[i], k, who) {
        assert cs'[i] == cs[i] && cs'[i + 1] == cs[i + 1] && es'[i] == es[i];
      }
      RunBudget(cs', es', k, who);
      StepBudget(cs[n], es[n], cs[n + 1], k, who);
    }
  }

  /** The plain budget: when no minor change and no exemption occurs, the limit is kept at every moment. */
  lemma PlainRunBudget(cs: seq<Cluster>, es: seq<Event>, k: int, who: set<string>)
    requires |cs| == |es| + 1
    requires forall i :: 0 <= i < |es| ==> Step(cs[i], es[i], cs[i + 1]) && Regular(cs[i], es[i], k, who)
    requires forall i :: 0 <= i < |es| ==> EventExtras(cs[i], es[i], who) == 0
    ensures |DisturbedSet(cs[|es|], who)| <= Max(|DisturbedSet(cs[0], who)|, k)
  {
    NoExtras(cs, es, who);
    RunBudget(cs, es, k, who);
  }

  lemma {:induction false} NoExtras(cs: seq<Cluster>, es: seq<Event>, who: set<string>)
    requires |cs| == |es| + 1
    requires forall i :: 0 <= i < |es| ==> EventExtras(cs[i], es[i], who) == 0
    ensures TotalExtras(cs, es, who) == 0
    decreases |es|
  {
    if es != [] {
      var n := |es| - 1;
      assert forall i :: 0 <= i < n ==> cs[..|es|][i] == cs[i] && es[..n][i] == es[i];
      NoExtras(cs[..|es|], es[..n], who);
    }
  }
}
