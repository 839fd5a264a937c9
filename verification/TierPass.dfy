/** reconcile as it runs: two loops over the tier that update counters and lists and write through the plan store. */
module TierPass {
  import opened Model
  import opened PlanEntry
  import opened Store
  import opened Scheduler
  import Join
  import PlannerDrain

  method ConditionStatus(c: Cluster, names: seq<string>, noisy: set<string>, g: Settings) returns (err: Err)
    ensures err == ConditionErr(c, names, noisy, g)
  {
    var waiting := false;
    for i := 0 to |names|
      invariant forall k :: 0 <= k < i ==>
        names[k] in c.machines && !UpdateFails(c.machines[names[k]], names[k], names[k] in noisy, g)
      invariant waiting <==> exists k :: 0 <= k < i && Pending(c.machines[names[k]], names[k] in noisy)
    {
      var m := names[i];
      assert m in names;
      if m !in c.machines {
        return Other;
      }
      var machine := c.machines[m];
      if !machine.infrastructureReady {
        waiting := true;
        continue;
      }
      if m in noisy || !machine.reconciled {
        waiting := true;
        if g.statusFails(m) {
          return Other;
        }
      }
    }
    return if waiting then Waiting else Nil;
  }

  class Pass {
    const store: PlanStore
    const settings: Settings
    const options: DrainOptions
    var concurrency: int
    var unavailable: int
    var uncordoned: seq<string>
    var draining: seq<string>
    var outOfSync: seq<string>
    var ready: seq<string>
    var errMachines: seq<string>
    var nonReady: seq<string>
    var noisy: set<string>

    constructor (store: PlanStore, settings: Settings, options: DrainOptions, concurrency: int, unavailable: int)
      ensures this.store == store && this.settings == settings && this.options == options
      ensures this.concurrency == concurrency
      ensures Now(Nil) == StartTally(store.cluster, unavailable)
    {
      this.store := store;
      this.settings := settings;
      this.options := options;
      this.concurrency := concurrency;
      this.unavailable := unavailable;
      uncordoned, draining, outOfSync, ready, errMachines, nonReady, noisy := [], [], [], [], [], [], {};
    }

    /** The state of the pass as a value. */
    ghost function Now(err: Err): Tally
      reads this, store
    {
      Tally(store.cluster, unavailable, uncordoned, draining, outOfSync, ready, errMachines, nonReady, noisy, err)
    }

    method Summarize(r: Reconcilable)
      requires r.name in store.cluster.machines
      modifies this
      ensures concurrency == old(concurrency)
      ensures Now(Nil) == Summarized(old(Now(Nil)), r)
    {
      var summary := store.cluster.machines[r.name].summary;
      if summary.error {
        errMachines := errMachines + [r.name];
      }
      if summary.transitioning {
        nonReady := nonReady + [r.name];
      }
      if summary.message || !Quiet(r.node) {
        noisy := noisy + {r.name};
      } else {
        noisy := noisy - {r.name};
      }
    }

    method Annotate(r: Reconcilable, annotations: Annotations) returns (err: Err)
      requires r.name in store.cluster.secrets
      modifies store
      ensures Now(err) == Annotated(old(Now(Nil)), r, annotations)
    {
      var secret := store.cluster.secrets[r.name];
      if annotations == secret.annotations {
        return Nil;
      }
      assert secret.(annotations := annotations) == secret.(labels := secret.labels, annotations := annotations);
      var node;
      err, node := store.UpdateMetadata(r.name, r.node, secret.labels, annotations);
    }

    method Disrupt(r: Reconcilable) returns (err: Err)
      requires r.name in store.cluster.secrets && r.name in store.cluster.machines && r.node.Some?
      modifies this, store
      ensures concurrency == old(concurrency)
      ensures Now(err) == Disrupted(old(Now(Nil)), r, options)
    {
      hide PlannerDrain.Drain, IsUnavailable, Quiet, WithPlan, SecretToNode;
      if !IsUnavailable(store.cluster, r) {
        unavailable := unavailable + 1;
      }
      var answer := PlannerDrain.Drain(store.cluster.secrets[r.name].annotations,
                                       store.cluster.machines[r.name].nodeRef, r.node.value.appliedPlan, r.desired,
                                       |store.cluster.machines| == 1, options);
      err := Annotate(r, answer.annotations);
      if err != Nil {
        return;
      }
      if answer.ok && !answer.failed {
        var node;
        err, node := store.UpdatePlan(r.name, r.node, r.desired, r.joinedURL, -1, 1);
        if err != Nil {
          return;
        }
        if store.cluster.secrets[r.name].annotations.drainDone != Blank {
          noisy := noisy + {r.name};
        } else if Quiet(r.node) {
          noisy := noisy + {r.name};
        }
      } else {
        draining := draining + [r.name];
        noisy := noisy + {r.name};
      }
    }

    method Settle(r: Reconcilable) returns (err: Err)
      requires r.name in store.cluster.secrets && r.name in store.cluster.machines
      modifies this, store
      ensures concurrency == old(concurrency)
      ensures Now(err) == Settled(old(Now(Nil)), r, settings)
    {
      var answer := PlannerDrain.Undrain(store.cluster.secrets[r.name].annotations);
      err := Annotate(r, answer.annotations);
      if err != Nil {
        return;
      }
      if !answer.ok || answer.failed {
        uncordoned := uncordoned + [r.name];
        noisy := noisy + {r.name};
      } else if settings.agentConnected && !store.cluster.machines[r.name].kubeletUpToDate {
        outOfSync := outOfSync + [r.name];
        noisy := noisy + {r.name};
      } else if Matches(store.cluster, ControlPlane, r.name) && !settings.agentConnected {
        outOfSync := outOfSync + [r.name];
        noisy := noisy + {r.name};
      } else {
        ready := ready + [r.name];
      }
    }

    method Visit(r: Reconcilable) returns (err: Err)
      requires r.name in store.cluster.secrets && r.name in store.cluster.machines
      modifies this, store
      ensures concurrency == old(concurrency)
      ensures Now(err) == Visited(old(Now(Nil)), r, concurrency, options, settings)
    {
      Summarize(r);
      err := Nil;
      if r.node.None? || r.minorChange {
        outOfSync := outOfSync + [r.name];
        var node;
        err, node := store.UpdatePlan(r.name, r.node, r.desired, r.joinedURL, -1, 1);
      } else if r.change {
        outOfSync := outOfSync + [r.name];
        if Admitted(store.cluster, r, concurrency, unavailable) {
          err := Disrupt(r);
        }
      } else if !Quiet(r.node) {
        outOfSync := outOfSync + [r.name];
      } else {
        err := Settle(r);
      }
    }

    method Run(rs: seq<Reconcilable>) returns (err: Err)
      requires Known(store.cluster, rs)
      modifies this, store
      ensures Now(err) == Scheduled(old(Now(Nil)), rs, old(concurrency), options, settings)
    {
      ghost var start := Now(Nil);
      assert rs[0..] == rs;
      for i := 0 to |rs|
        invariant concurrency == old(concurrency)
        invariant Known(store.cluster, rs[i..])
        invariant Scheduled(start, rs, concurrency, options, settings) ==
                  Scheduled(Now(Nil), rs[i..], concurrency, options, settings)
      {
        ghost var rest := rs[i..];
        assert rest[0] == rs[i] && rest[1..] == rs[i + 1..];
        err := Visit(rs[i]);
        assert forall k :: 0 <= k < |rest[1..]| ==> rest[1..][k] == rest[k + 1];
        if err != Nil {
          return;
        }
      }
      assert rs[|rs|..] == [];
      return Nil;
    }

    method Finish(required: bool, none: bool) returns (err: Err)
      ensures err == Verdict(Now(Nil), required, none, settings)
    {
      if required && none {
        return Waiting;
      }
      var first := ConditionStatus(store.cluster, uncordoned, noisy, settings);
      var e := ConditionStatus(store.cluster, draining, noisy, settings);
      if e != Nil && first == Nil { first := e; }
      e := ConditionStatus(store.cluster, outOfSync, noisy, settings);
      if e != Nil && first == Nil { first := e; }
      e := ConditionStatus(store.cluster, ready, {}, settings);
      if e != Nil && first == Nil { first := e; }
      if first != Nil {
        return first;
      }
      if |errMachines| > 0 || |nonReady| > 0 {
        return Ignore;
      }
      return Nil;
    }
  }

  method Prepare(c: Cluster, m: string, joinURL: string, g: Settings) returns (r: Try<Reconcilable>)
    requires m in c.machines && m in c.secrets
    ensures r == Prepared(c, m, joinURL, g)
  {
    hide Join.DeterminedJoinURL, MakeReconcilable;
    var url := Join.DetermineJoinURL(c, m, NodeOf(c, m), g.crc, joinURL);
    if url.None? {
      return Bad(Other);
    }
    var rendered := g.desired(m, c.secrets[m].labels, c.secrets[m].annotations, url.value);
    if rendered.RenderFails? {
      return Bad(RenderErr(rendered.ignorable));
    }
    return Good(MakeReconcilable(c, m, rendered.plan, rendered.joinedTo));
  }

  method Gather(c: Cluster, names: seq<string>, exclude: Filter, joinURL: string, g: Settings)
    returns (rs: Try<seq<Reconcilable>>)
    requires Listed(c, names)
    ensures rs == Gathered(c, names, exclude, joinURL, g)
  {
    hide Matches, Prepared;
    var done: seq<Reconcilable> := [];
    assert names[0..] == names;
    ghost var all := Gathered(c, names, exclude, joinURL, g);
    assert all.Good? ==> done + all.value == all.value;
    for i := 0 to |names|
      invariant var rest := Gathered(c, names[i..], exclude, joinURL, g);
        Gathered(c, names, exclude, joinURL, g) == if rest.Bad? then rest else Good(done + rest.value)
    {
      var m := names[i];
      assert names[i..][0] == m && names[i..][1..] == names[i + 1..];
      if Matches(c, exclude, m) {
        continue;
      }
      var r := Prepare(c, m, joinURL, g);
      if r.Bad? {
        return Bad(r.err);
      }
      ghost var rest := Gathered(c, names[i + 1..], exclude, joinURL, g);
      if rest.Good? {
        assert done + ([r.value] + rest.value) == (done + [r.value]) + rest.value;
      }
      done := done + [r.value];
    }
    assert names[|names|..] == [];
    assert done + [] == done;
    return Good(done);
  }

  method Reconcile(store: PlanStore, tier: Tier, g: Settings) returns (err: Err)
    requires Listed(store.cluster, Collected(store.cluster, tier.filter))
    modifies store
    ensures Outcome(store.cluster, err) == Reconciled(old(store.cluster), tier, g)
  {
    var c := store.cluster;
    var entries := Collect(c, tier.filter);
    var gathered := Gather(c, entries, tier.exclude, tier.joinURL, g);
    if gathered.Bad? {
      return gathered.err;
    }
    var rs := gathered.value;
    GatheredKnown(c, entries, tier.exclude, tier.joinURL, g);
    var allowed, unavailable := CalculateConcurrency(c, tier.maxUnavailable, rs, tier.exclude);
    if allowed.None? {
      return Other;
    }
    var pass := new Pass(store, g, tier.options, allowed.value, unavailable);
    err := pass.Run(rs);
    if err != Nil {
      return Other;
    }
    err := pass.Finish(tier.required, |entries| == 0);
  }
}
