/** Persisted runs of encryption-key rotation, and the order and effect of its restarts. */
module KeyRuns {
  import opened Model
  import opened PlanEntry
  import opened Store
  import opened Scheduler
  import opened InitNode
  import opened ControlPlane
  import opened Process
  import opened Exclusivity
  import opened Runs
  import opened KeyRotation
  import InitNodeRuns
  import SnapshotCreate
  import SnapshotRestore
  import CertificateRotation
  import FullReconcile
  import Names

  // ---------------------------------------------------------------- what a pass may do to the rotation state

  predicate KeysKept(s: Status, s': Status) {
    s'.keys == s.keys && s'.keyPhase == s.keyPhase && s'.keyLeader == s.keyLeader
  }

  /** The rotation advances exactly one place. The leader is kept, until it is dropped at the end. */
  predicate Advance(spec: Spec, s: Status, s': Status) {
    && InProgress(s.keyPhase) && s'.keyPhase == NextPhase(s.keyPhase) && s'.keys == spec.keys
    && s'.keyLeader == if s'.keyPhase == KeysDone then "" else s.keyLeader
  }

  /** The rotation starts: it was absent, or over, and not over for this very generation. */
  predicate Entry(spec: Spec, s: Status, s': Status) {
    && spec.keys.Some? && s'.keys == spec.keys && s'.keyPhase == Prepare && s'.keyLeader == s.keyLeader
    && (s.keys.None? || !InProgress(s.keyPhase))
    && !(s.keys == spec.keys && (s.keyPhase == KeysDone || s.keyPhase == KeysFailed))
  }

  predicate Reset(spec: Spec, s: Status, s': Status) {
    spec.keys.None? && s'.keys.None? && s'.keyPhase == NoKeyPhase && s'.keyLeader == s.keyLeader
  }

  /** The release does not support rotation, which is the one way for a failure to be recorded. */
  predicate Rejected(spec: Spec, w: World, s: Status, s': Status) {
    && spec.keys.Some? && w.keysSupported == Good(false)
    && s'.keys == spec.keys && s'.keyPhase == KeysFailed && s'.keyLeader == s.keyLeader
  }

  /** A leader is chosen, which only happens while the rotation is being prepared. */
  predicate Choice(s: Status, s': Status) {
    s.keyPhase == Prepare && s'.keys == s.keys && s'.keyPhase == s.keyPhase && s'.keyLeader != s.keyLeader
  }

  predicate KeyMove(spec: Spec, w: World, s: Status, s': Status) {
    KeysKept(s, s') || Advance(spec, s, s') || Entry(spec, s, s') || Reset(spec, s, s') || Rejected(spec, w, s, s') ||
    Choice(s, s')
  }

  predicate Persists(err: Err) {
    err == Nil || err == Waiting
  }

  lemma CommandedPersists(s: Status, phase: KeyPhase, c: Cluster, joinServer: string, leader: string, w: World)
    requires leader in c.secrets
    ensures var r := Commanded(s, phase, c, joinServer, leader, w);
      Persists(r.err) ==> r.status == s
  {
    hide Assigned;
    AssignedNil(c, leader, CommandJob(phase, joinServer), w);
  }

  lemma ServicePersists(s: Status, phase: KeyPhase, c: Cluster, joinServer: string, m: string, scrape: bool,
                        leaderStage: string, w: World)
    requires m in c.secrets
    ensures var r := ServiceRestarted(s, phase, c, joinServer, m, scrape, leaderStage, w);
      Persists(r.err) ==> r.status == s
    ensures var r := FollowerRestarted(s, phase, c, joinServer, m, scrape, leaderStage, w);
      Persists(r.err) ==> r.status == s
  {
    hide Assigned, Matches;
  }

  lemma {:induction false} FollowersPersist(s: Status, phase: KeyPhase, c: Cluster, joinServer: string,
                                            names: seq<string>, scrape: bool, leaderStage: string, w: World)
    requires Listed(c, names)
    ensures var r := FollowersRestarted(s, phase, c, joinServer, names, scrape, leaderStage, w);
      Persists(r.err) ==> r.status == s
    decreases |names|
  {
    hide FollowerRestarted;
    if names != [] {
      ServicePersists(s, phase, c, joinServer, names[0], scrape, leaderStage, w);
      FollowersPersist(s, phase, c, joinServer, names[1..], scrape, leaderStage, w);
    }
  }

  lemma LeaderPersists(cp: Object, s: Status, c: Cluster, joinServer: string, leader: string, w: World)
    requires leader in c.secrets
    ensures var r := LeaderRestarted(cp, s, c, joinServer, leader, w);
      Persists(r.err) ==> r.status == s
  {
    hide ServiceRestarted, FollowersRestarted;
    var phase, keyLeader := cp.status.keyPhase, cp.status.keyLeader;
    OthersListed(c, keyLeader);
    ServicePersists(s, phase, c, joinServer, leader, true, "", w);
    var stage := ServiceRestarted(s, phase, c, joinServer, leader, true, "", w).stage;
    FollowersPersist(s, phase, c, joinServer, Collected(c, OtherControlPlane(keyLeader)), true, stage, w);
  }

  lemma RestartPersists(cp: Object, s: Status, c: Cluster, joinServer: string, leader: string, initNode: string,
                        w: World)
    requires leader in c.secrets && initNode in c.secrets
    ensures var r := NodesRestarted(cp, s, c, joinServer, leader, initNode, w);
      Persists(r.err) ==> r.status == s
  {
    hide FollowerRestarted, FollowersRestarted, LeaderRestarted, Matches;
    var phase, keyLeader := cp.status.keyPhase, cp.status.keyLeader;
    OthersListed(c, keyLeader);
    ServicePersists(s, phase, c, joinServer, initNode, false, "", w);
    FollowersPersist(s, phase, c, joinServer, Collected(c, OtherEtcd(keyLeader)), false, "", w);
    LeaderPersists(cp, s, c, joinServer, leader, w);
  }

  lemma AdvancedMoves(spec: Spec, s: Status, stage: Stage)
    requires InProgress(s.keyPhase) && spec.keys.Some?
    requires Persists(stage.err) ==>
      stage.status == if NextPhase(s.keyPhase) == KeysDone && stage.err == Nil then s.(keyLeader := "") else s
    ensures var r := Advanced(stage, spec.keys, NextPhase(s.keyPhase));
      Persists(r.err) ==> KeysKept(s, r.status) || Advance(spec, s, r.status)
  {
  }

  lemma PhaseMoves(cp: Object, c: Cluster, joinServer: string, leader: string, initNode: string, w: World)
    requires leader in c.secrets && initNode in c.secrets && cp.spec.keys.Some?
    ensures var r := InPhase(cp, cp.status, c, joinServer, leader, initNode, w);
      Persists(r.err) ==> KeysKept(cp.status, r.status) || Advance(cp.spec, cp.status, r.status)
  {
    hide Commanded, NodesRestarted, Matches, Advanced, Advance;
    var s, phase := cp.status, cp.status.keyPhase;
    CommandedPersists(s, phase, c, joinServer, leader, w);
    RestartPersists(cp, s, c, joinServer, leader, initNode, w);
    var restarted := NodesRestarted(cp, s, c, joinServer, leader, initNode, w);
    if phase == PostReencryptRestart {
      if restarted.err == Nil { AdvancedMoves(cp.spec, s, restarted.(status := restarted.status.(keyLeader := ""))); }
    } else if phase == PostPrepareRestart || phase == PostRotateRestart {
      AdvancedMoves(cp.spec, s, restarted);
    } else if InProgress(phase) {
      AdvancedMoves(cp.spec, s, Commanded(s, phase, c, joinServer, leader, w));
    }
  }

  lemma ProceedingMoves(cp: Object, c: Cluster, joinServer: string, initNode: string, w: World)
    requires cp.spec.keys.Some? && CanRotate(cp) && initNode in c.secrets
    ensures var e := Proceeding(cp, cp.status, c, joinServer, initNode, w);
      Persists(e.err) ==> KeyMove(cp.spec, w, cp.status, e.status)
  {
    hide InPhase, Matches;
    LeaderHasSecret(cp.status, c, initNode);
    var leader := Leader(cp.status, c, initNode);
    if leader.Some? {
      PhaseMoves(cp, c, joinServer, leader.value, initNode, w);
    }
  }

  lemma KeyStageMoves(cp: Object, c: Cluster, w: World)
    ensures var e := KeyStage(cp, cp.status, c, w);
      Persists(e.err) ==> KeyMove(cp.spec, w, cp.status, e.status)
  {
    hide FoundInitNode, Proceeding, CanRotate;
    var f := FoundInitNode(c, cp.fixedInitNode);
    if f.err == Nil && cp.spec.keys.Some? && CanRotate(cp) {
      FoundHasSecret(c, cp.fixedInitNode);
      ProceedingMoves(cp, f.cluster, f.joinURL, f.node.value, w);
    }
  }

  lemma OtherStagesKeepKeys(cp: Object, c: Cluster, w: World)
    ensures var s := cp.status;
      Acting(cp, c, w) == KeyStage(cp, s, c, w) || KeysKept(s, Acting(cp, c, w).status)
  {
    hide SnapshotCreate.Created, SnapshotRestore.RestoreStage, CertificateRotation.RotationStage, KeyStage,
         FullReconcile.FullyReconciled, EtcdReplaced;
    var s := cp.status;
    CreatedFrame(cp, s, c, w);
    RestoreFrame(cp, s, c, w);
    RotationFrame(cp, s, c, w);
    FullFrame(cp, s, c, false, w);
  }

  lemma MoveThenKept(spec: Spec, w: World, s: Status, s1: Status, s2: Status)
    requires KeysKept(s1, s2) && (KeysKept(s, s1) || KeyMove(spec, w, s, s1))
    ensures KeyMove(spec, w, s, s2)
  {
  }

  /** A pass that persists its status persists a move of the stage that acted. */
  lemma PassMoves(cp: Object, c: Cluster, w: World)
    ensures KeyMove(cp.spec, w, cp.status, Persisted(cp, c, w).cp.status)
  {
    hide Persisted, Acting, KeyStage, Planned, KeyMove;
    PersistedMeans(cp, c, w);
    OtherStagesKeepKeys(cp, c, w);
    KeyStageMoves(cp, c, w);
    var s, acted, s' := cp.status, Acting(cp, c, w), Persisted(cp, c, w).cp.status;
    if Planned(cp, c, w) && Persists(acted.err) && SameProgress(acted.status, s') {
      MoveThenKept(cp.spec, w, s, acted.status, s');
    } else {
      MoveThenKept(cp.spec, w, s, s, s');
    }
  }

  /** Every pass moves the persisted rotation by the rules, and whatever others do in between leaves it alone. */
  lemma StepMoves(a: Moment, e: Event, b: Moment)
    requires Step(a, e, b)
    ensures if e.Pass? then KeyMove(a.cp.spec, e.w, a.cp.status, b.cp.status) else KeysKept(a.cp.status, b.cp.status)
  {
    hide Persisted, KeyMove;
    if e.Pass? {
      PassMoves(a.cp, a.cluster, e.w);
    }
  }

  // ---------------------------------------------------------------- runs

  /** Past its preparation and not yet over. */
  predicate UnderWay(s: Status) {
    InProgress(s.keyPhase) && s.keyPhase != Prepare
  }

  /** Once the rotation is past its preparation, the recorded leader never changes as long as it is under way. */
  lemma {:induction false} LeaderNeverChanges(ms: seq<Moment>, es: seq<Event>, i: nat, j: nat)
    requires Run(ms, es) && i <= j < |ms|
    requires forall k :: i <= k <= j ==> UnderWay(ms[k].cp.status)
    ensures ms[j].cp.status.keyLeader == ms[i].cp.status.keyLeader
    decreases j
  {
    hide Step, Persists;
    if i < j {
      LeaderNeverChanges(ms, es, i, j - 1);
      assert Step(ms[j - 1], es[j - 1], ms[j - 1 + 1]);
      StepMoves(ms[j - 1], es[j - 1], ms[j]);
      assert UnderWay(ms[j - 1].cp.status);
    }
  }

  /** The spec asks for this generation, and every release on the way supports the rotation. */
  ghost predicate Steady(ms: seq<Moment>, es: seq<Event>, generation: int)
    requires |ms| == |es| + 1
  {
    && (forall i :: 0 <= i < |ms| ==> ms[i].cp.spec.keys == Some(generation))
    && (forall i :: 0 <= i < |es| ==> es[i].Pass? ==> es[i].w.keysSupported != Good(false))
  }

  /** A generation that is recorded as done is not rotated again until the spec asks for another one. */
  lemma {:induction false} DoneStaysDone(ms: seq<Moment>, es: seq<Event>, generation: int, i: nat)
    requires Run(ms, es) && Steady(ms, es, generation) && i < |ms|
    requires ms[0].cp.status.keys == Some(generation) && ms[0].cp.status.keyPhase == KeysDone
    ensures KeysKept(ms[0].cp.status, ms[i].cp.status)
  {
    hide Step;
    if i > 0 {
      DoneStaysDone(ms, es, generation, i - 1);
      assert Step(ms[i - 1], es[i - 1], ms[i - 1 + 1]);
      StepMoves(ms[i - 1], es[i - 1], ms[i]);
    }
  }

  /** The place of a phase in the rotation. */
  function Place(p: KeyPhase): nat {
    match p
    case Prepare => 1
    case PostPrepareRestart => 2
    case Rotate => 3
    case PostRotateRestart => 4
    case Reencrypt => 5
    case PostReencryptRestart => 6
    case KeysDone => 7
    case _ => 0
  }

  function Passes(es: seq<Event>): nat {
    if es == [] then 0 else Passes(es[..|es| - 1]) + (if es[|es| - 1].Pass? then 1 else 0)
  }

  /** No place is skipped: after n passes, a rotation that is never reset, rejected or entered on the way is at most n
      places further than it was, and never further back. */
  lemma {:induction false} NoPlaceIsSkipped(ms: seq<Moment>, es: seq<Event>, generation: int)
    requires Run(ms, es) && Steady(ms, es, generation) && InProgress(ms[0].cp.status.keyPhase)
    requires ms[0].cp.status.keys == Some(generation)
    ensures ms[|es|].cp.status.keys == Some(generation)
    ensures Place(ms[0].cp.status.keyPhase) <= Place(ms[|es|].cp.status.keyPhase) <=
            Place(ms[0].cp.status.keyPhase) + Passes(es)
    decreases |es|
  {
    hide Step;
    if es != [] {
      var n := |es| - 1;
      RunPrefix(ms, es);
      assert forall i :: 0 <= i <= n ==> ms[..|es|][i] == ms[i];
      assert forall i :: 0 <= i < n ==> es[..n][i] == es[i];
      NoPlaceIsSkipped(ms[..|es|], es[..n], generation);
      StepMoves(ms[n], es[n], ms[n + 1]);
    }
  }

  /** A failure of the rotation is not recorded: the error that comes with it is not a waiting one, so the status is
      reverted, and the rotation is tried again although the failing stage announces otherwise. A persisted failure
      means that the release does not support the rotation. */
  lemma FailureIsNotRecorded(cp: Object, c: Cluster, w: World)
    requires cp.status.keyPhase != KeysFailed
    ensures Persisted(cp, c, w).cp.status.keyPhase == KeysFailed ==> w.keysSupported == Good(false)
    ensures Planned(cp, c, w) && Acting(cp, c, w).status.keyPhase == KeysFailed && w.keysSupported != Good(false) ==>
      SameProgress(cp.status, Persisted(cp, c, w).cp.status)
  {
    hide Persisted, Acting, KeyStage, Planned;
    PersistedMeans(cp, c, w);
    OtherStagesKeepKeys(cp, c, w);
    KeyStageMoves(cp, c, w);
  }

  // ---------------------------------------------------------------- the restarts

  /** The machines that a restart phase goes through, in order. */
  ghost function RestartOrder(c: Cluster, leader: string, initNode: string): seq<string> {
    (if Matches(c, Filter.InitNode, leader) then [] else [initNode] + Collected(c, OtherEtcd(leader))) +
    ([leader] + Collected(c, OtherControlPlane(leader)))
  }

  lemma OtherMeans(c: Cluster, leader: string, m: string)
    ensures Matches(c, OtherEtcd(leader), m) <==>
      Matches(c, Etcd, m) && !Matches(c, Filter.ControlPlane, m) && m != leader && !Matches(c, Filter.InitNode, m)
    ensures Matches(c, OtherControlPlane(leader), m) <==>
      Matches(c, Filter.ControlPlane, m) && !Matches(c, Filter.InitNode, m) && m != leader
  {
    hide Matches;
    var a, b := And(Etcd, Not(Filter.ControlPlane)), And(Not(Named(leader)), Not(Filter.InitNode));
    var other := And(Filter.ControlPlane, Not(Filter.InitNode));
    AndMeans(c, Etcd, Not(Filter.ControlPlane), m);
    NotMeans(c, Filter.ControlPlane, m);
    AndMeans(c, Not(Named(leader)), Not(Filter.InitNode), m);
    NotMeans(c, Filter.InitNode, m);
    AndMeans(c, a, b, m);
    AndMeans(c, Filter.ControlPlane, Not(Filter.InitNode), m);
    AndMeans(c, other, Not(Named(leader)), m);
    NotMeans(c, Named(leader), m);
    NamedMeans(c, leader, m);
  }

  lemma NamedMeans(c: Cluster, leader: string, m: string)
    ensures Matches(c, Named(leader), m) <==> m == leader
  {
  }

  /** With a single init node and a leader that is a control-plane machine, a restart phase visits every control-plane
      machine exactly once, whether or not the leader is the init node, and no machine twice. When the leader is not the
      init node it also visits every etcd machine; otherwise it visits control-plane machines only. */
  lemma RestartVisitsEachOnce(c: Cluster, leader: string, initNode: string)
    requires Marks(c) == {initNode} && leader in c.machines && Matches(c, Filter.ControlPlane, leader)
    ensures var order := RestartOrder(c, leader, initNode);
      && Names.NoDuplicates(order)
      && (forall m :: m in c.machines && Matches(c, Filter.ControlPlane, m) ==> m in order)
      && (leader != initNode ==> forall m :: m in c.machines && Matches(c, Etcd, m) ==> m in order)
      && (forall m :: m in order ==>
            m in c.machines && (m == initNode || Matches(c, Filter.ControlPlane, m) ||
                                (leader != initNode && Matches(c, Etcd, m))))
  {
    hide Matches;
    forall m | m in c.machines ensures Matches(c, Filter.InitNode, m) <==> m == initNode {
      assert Matches(c, Filter.InitNode, m) <==> m in Marks(c);
    }
    assert initNode in Marks(c);
    var etcds, controlPlanes := Collected(c, OtherEtcd(leader)), Collected(c, OtherControlPlane(leader));
    forall m
      ensures m in etcds <==> (m in c.machines && Matches(c, Etcd, m) && !Matches(c, Filter.ControlPlane, m) &&
                               m != leader && m != initNode)
    {
      OtherMeans(c, leader, m);
    }
    forall m
      ensures m in controlPlanes <==> (m in c.machines && Matches(c, Filter.ControlPlane, m) && m != initNode &&
                                       m != leader)
    {
      OtherMeans(c, leader, m);
    }
    var last := [leader] + controlPlanes;
    Joined([leader], controlPlanes);
    if leader == initNode {
      assert RestartOrder(c, leader, initNode) == last;
    } else {
      Joined([initNode], etcds);
      Joined([initNode] + etcds, last);
      assert RestartOrder(c, leader, initNode) == ([initNode] + etcds) + last;
    }
  }

  lemma Joined(xs: seq<string>, ys: seq<string>)
    ensures forall m :: m in xs + ys <==> m in xs || m in ys
    ensures Names.NoDuplicates(xs) && Names.NoDuplicates(ys) && (forall m :: m in xs ==> m !in ys) ==>
      Names.NoDuplicates(xs + ys)
  {
    var all := xs + ys;
    if Names.NoDuplicates(xs) && Names.NoDuplicates(ys) && (forall m :: m in xs ==> m !in ys) {
      forall i, j | 0 <= i < j < |all| ensures all[i] != all[j] {
        if i < |xs| <= j {
          assert xs[i] in xs && all[j] == ys[j - |xs|];
        } else if |xs| <= i {
          assert all[i] == ys[i - |xs|] && all[j] == ys[j - |xs|];
        }
      }
    }
  }

  /** The follower has applied its restart plan, healthy and not failed, and reports the leader's stage if it is asked
      for one. */
  predicate Follows(c: Cluster, m: string, phase: KeyPhase, joinServer: string, scrape: bool, leaderStage: string,
                    w: World) {
    && Completed(c, m, RestartJob(phase, joinServer, leaderStage), w)
    && (scrape && Matches(c, Filter.ControlPlane, m) ==> StageFromOutput(c.nodes[m], w) == Good(leaderStage))
  }

  lemma ServiceFollows(s: Status, phase: KeyPhase, c: Cluster, joinServer: string, m: string, scrape: bool,
                       leaderStage: string, w: World)
    requires m in c.secrets
    ensures var r := ServiceRestarted(s, phase, c, joinServer, m, scrape, leaderStage, w);
      r.err == Nil ==>
        && Completed(c, m, RestartJob(phase, joinServer, leaderStage), w)
        && (scrape && Matches(c, Filter.ControlPlane, m) ==> StageFromOutput(c.nodes[m], w) == Good(r.stage))
    ensures FollowerRestarted(s, phase, c, joinServer, m, scrape, leaderStage, w).err == Nil ==>
      Follows(c, m, phase, joinServer, scrape, leaderStage, w)
  {
    hide Matches, Assigned;
    AssignedNil(c, m, RestartJob(phase, joinServer, leaderStage), w);
  }

  lemma {:induction false} FollowersFollow(s: Status, phase: KeyPhase, c: Cluster, joinServer: string,
                                           names: seq<string>, scrape: bool, leaderStage: string, w: World)
    requires Listed(c, names)
    ensures FollowersRestarted(s, phase, c, joinServer, names, scrape, leaderStage, w).err == Nil ==>
      forall m :: m in names ==> Follows(c, m, phase, joinServer, scrape, leaderStage, w)
    decreases |names|
  {
    hide FollowerRestarted, Follows;
    if names != [] {
      ServiceFollows(s, phase, c, joinServer, names[0], scrape, leaderStage, w);
      FollowersFollow(s, phase, c, joinServer, names[1..], scrape, leaderStage, w);
      assert names == [names[0]] + names[1..];
    }
  }

  /** The restart barrier: a restart phase ends with nil only when every machine of the restart order has applied its
      restart plan for this phase, and the leader and every control-plane machine behind it report one and the same
      stage. */
  ghost predicate AllRestarted(c: Cluster, phase: KeyPhase, joinServer: string, leader: string, initNode: string,
                               stage: string, w: World) {
    forall m :: m in RestartOrder(c, leader, initNode) ==>
      if m == leader then
        && Completed(c, m, RestartJob(phase, joinServer, ""), w)
        && (Matches(c, Filter.ControlPlane, m) ==> StageFromOutput(c.nodes[m], w) == Good(stage))
      else if m in Collected(c, OtherControlPlane(leader)) then Follows(c, m, phase, joinServer, true, stage, w)
      else Follows(c, m, phase, joinServer, false, "", w)
  }

  lemma RestartBarrier(cp: Object, s: Status, c: Cluster, joinServer: string, leader: string, initNode: string,
                       w: World)
    requires leader in c.secrets && initNode in c.secrets && cp.status.keyLeader == leader
    requires initNode !in Collected(c, OtherControlPlane(leader))
    requires NodesRestarted(cp, s, c, joinServer, leader, initNode, w).err == Nil
    ensures var stage := ServiceRestarted(s, cp.status.keyPhase, c, joinServer, leader, true, "", w).stage;
      AllRestarted(c, cp.status.keyPhase, joinServer, leader, initNode, stage, w)
  {
    hide Matches, ServiceRestarted, FollowerRestarted, FollowersRestarted, Follows, StageFromOutput, Completed;
    var phase := cp.status.keyPhase;
    OthersListed(c, leader);
    var etcds, controlPlanes := Collected(c, OtherEtcd(leader)), Collected(c, OtherControlPlane(leader));
    ServiceFollows(s, phase, c, joinServer, leader, true, "", w);
    var stage := ServiceRestarted(s, phase, c, joinServer, leader, true, "", w).stage;
    FollowersFollow(s, phase, c, joinServer, controlPlanes, true, stage, w);
    Joined([leader], controlPlanes);
    if !Matches(c, Filter.InitNode, leader) {
      ServiceFollows(s, phase, c, joinServer, initNode, false, "", w);
      FollowersFollow(s, phase, c, joinServer, etcds, false, "", w);
      Joined([initNode], etcds);
      Joined([initNode] + etcds, [leader] + controlPlanes);
    }
    forall m | m in controlPlanes ensures m !in etcds {
      OtherMeans(c, leader, m);
    }
  }

  // ---------------------------------------------------------------- what an advance means

  predicate Commands(phase: KeyPhase) {
    phase == Prepare || phase == Rotate || phase == Reencrypt
  }

  /** The work of the phase is done: the leader has run its command and reports a stage that the phase allows, or every
      machine of the restart order has restarted. */
  ghost predicate Earned(c: Cluster, phase: KeyPhase, joinServer: string, leader: string, initNode: string,
                         stage: string, w: World) {
    if Commands(phase) then
      && Completed(c, leader, CommandJob(phase, joinServer), w)
      && StageFromOutput(c.nodes[leader], w) == Good(stage) && StageAllowed(stage, phase)
    else AllRestarted(c, phase, joinServer, leader, initNode, stage, w)
  }

  lemma CommandEarns(s: Status, phase: KeyPhase, c: Cluster, joinServer: string, leader: string, initNode: string,
                     w: World)
    returns (stage: string)
    requires leader in c.secrets && Commands(phase) && Commanded(s, phase, c, joinServer, leader, w).err == Nil
    ensures Earned(c, phase, joinServer, leader, initNode, stage, w)
  {
    hide Assigned;
    AssignedNil(c, leader, CommandJob(phase, joinServer), w);
    stage := StageFromOutput(c.nodes[leader], w).value;
  }

  /** The stage ended with nil or waiting, and in the next phase. */
  predicate WentOn(r: Stage, phase: KeyPhase) {
    Persists(r.err) && InProgress(phase) && r.status.keyPhase == NextPhase(phase)
  }

  lemma PhaseEarns(cp: Object, c: Cluster, joinServer: string, leader: string, initNode: string, w: World)
    returns (stage: string)
    requires leader in c.secrets && initNode in c.secrets && cp.status.keyLeader == leader
    requires initNode !in Collected(c, OtherControlPlane(leader))
    ensures WentOn(InPhase(cp, cp.status, c, joinServer, leader, initNode, w), cp.status.keyPhase) ==>
      Earned(c, cp.status.keyPhase, joinServer, leader, initNode, stage, w)
  {
    hide Commanded, NodesRestarted, ServiceRestarted, AllRestarted, Matches;
    var s, phase := cp.status, cp.status.keyPhase;
    stage := "";
    if WentOn(InPhase(cp, s, c, joinServer, leader, initNode, w), phase) {
      CommandedPersists(s, phase, c, joinServer, leader, w);
      RestartPersists(cp, s, c, joinServer, leader, initNode, w);
      if Commands(phase) {
        stage := CommandEarns(s, phase, c, joinServer, leader, initNode, w);
      } else {
        RestartBarrier(cp, s, c, joinServer, leader, initNode, w);
        stage := ServiceRestarted(s, phase, c, joinServer, leader, true, "", w).stage;
      }
    }
  }

  lemma FoundIsMarked(c: Cluster, fixed: string, leader: string)
    requires FoundInitNode(c, fixed).err == Nil && FoundInitNode(c, fixed).node.Some?
    ensures FoundInitNode(c, fixed).node.value !in Collected(c, OtherControlPlane(leader))
  {
    hide ClearedMarks;
    InitNodeRuns.FoundRelabels(c, fixed);
    var m := FoundInitNode(c, fixed).node.value;
    OtherMeans(c, leader, m);
    if fixed != "" {
      var entries := Collected(c, LabelledId(fixed));
      assert entries[0] in entries;
    } else {
      var entries := Collected(c, Filter.InitNode);
      assert entries[0] in entries;
    }
  }

  lemma ProceedingEarns(cp: Object, c: Cluster, joinServer: string, initNode: string, w: World)
    returns (stage: string)
    requires cp.spec.keys.Some? && initNode in c.secrets
    requires initNode !in Collected(c, OtherControlPlane(cp.status.keyLeader))
    ensures WentOn(Proceeding(cp, cp.status, c, joinServer, initNode, w), cp.status.keyPhase) ==>
      Earned(c, cp.status.keyPhase, joinServer, cp.status.keyLeader, initNode, stage, w)
  {
    hide InPhase, Leader, Matches, Earned;
    LeaderHasSecret(cp.status, c, initNode);
    stage := "";
    if Leader(cp.status, c, initNode) == Some(cp.status.keyLeader) {
      stage := PhaseEarns(cp, c, joinServer, cp.status.keyLeader, initNode, w);
    }
  }

  lemma StageEarns(cp: Object, c: Cluster, w: World) returns (joinServer: string, initNode: string, stage: string)
    ensures WentOn(KeyStage(cp, cp.status, c, w), cp.status.keyPhase) ==>
      Earned(c, cp.status.keyPhase, joinServer, cp.status.keyLeader, initNode, stage, w)
  {
    hide FoundInitNode, Proceeding, CanRotate, InPhase, Matches, Earned, InitNodeRuns.Relabelled;
    InitNodeRuns.FoundRelabels(c, cp.fixedInitNode);
    var f := FoundInitNode(c, cp.fixedInitNode);
    joinServer, initNode, stage := f.joinURL, "", "";
    if f.err == Nil && cp.spec.keys.Some? {
      FoundHasSecret(c, cp.fixedInitNode);
      FoundIsMarked(c, cp.fixedInitNode, cp.status.keyLeader);
      initNode := f.node.value;
      stage := ProceedingEarns(cp, c, joinServer, initNode, w);
    }
  }

  /** Whenever the persisted rotation advances, the work of the phase that it leaves has been done, by the recorded
      leader. */
  lemma AdvanceIsEarned(cp: Object, c: Cluster, w: World) returns (joinServer: string, initNode: string, stage: string)
    requires InProgress(cp.status.keyPhase)
    ensures Persisted(cp, c, w).cp.status.keyPhase == NextPhase(cp.status.keyPhase) ==>
      Earned(c, cp.status.keyPhase, joinServer, cp.status.keyLeader, initNode, stage, w)
  {
    hide Persisted, Acting, KeyStage, Planned, Earned;
    PersistedMeans(cp, c, w);
    OtherStagesKeepKeys(cp, c, w);
    joinServer, initNode, stage := StageEarns(cp, c, w);
  }

  // ---------------------------------------------------------------- what the leader's outputs have to say

  /** The one-time output of the status command reports this stage. */
  predicate Reports(n: Node, w: World, stage: string) {
    "secrets-encrypt-status" in n.output && w.stageOf(n.output["secrets-encrypt-status"]) == Some(stage)
  }

  /** So does its periodic output. */
  predicate ReportsAgain(n: Node, w: World, stage: string) {
    "secrets-encrypt-status" in n.periodicOutput &&
    w.stageOf(n.periodicOutput["secrets-encrypt-status"].stdout) == Some(stage)
  }

  ghost predicate ReportsSome(n: Node, w: World) {
    exists stage :: Reports(n, w, stage)
  }

  ghost predicate ReportsSomeAgain(n: Node, w: World) {
    exists stage :: ReportsAgain(n, w, stage)
  }

  /** The stage that the one-time output may report in the phase. */
  ghost predicate Fits(n: Node, w: World, phase: KeyPhase) {
    match phase
    case Prepare => Reports(n, w, "prepare")
    case Rotate => Reports(n, w, "rotate")
    case Reencrypt =>
      Reports(n, w, "reencrypt_request") || Reports(n, w, "reencrypt_active") || Reports(n, w, "reencrypt_finished")
    case _ => false
  }

  /** The outputs say that the command is done: both report a stage, the one-time output one that fits the phase; and a
      re-encryption has finished, by either output. */
  ghost predicate SaysDone(n: Node, w: World, phase: KeyPhase) {
    && Fits(n, w, phase) && ReportsSomeAgain(n, w)
    && (phase == Reencrypt ==> Reports(n, w, "reencrypt_finished") || ReportsAgain(n, w, "reencrypt_finished"))
  }

  /** The outputs say that the command has gone wrong: both report a stage, and the one-time one does not fit; or the
      one-time output reports a stage while the plan does not even ask for periodic output, and there is none. */
  ghost predicate SaysWrong(n: Node, w: World, phase: KeyPhase) {
    && ReportsSome(n, w)
    && if "secrets-encrypt-status" in n.periodicOutput then ReportsSomeAgain(n, w) && !Fits(n, w, phase)
       else forall i :: 0 <= i < |n.plan.periodic| ==> n.plan.periodic[i].name != "secrets-encrypt-status"
  }

  /** The verdict on the outputs: done, wrong, or to be waited for. */
  lemma VerdictMeans(s: Status, phase: KeyPhase, n: Node, w: World)
    ensures var v := CommandVerdict(s, phase, n, w);
      && (v.err == Nil <==> SaysDone(n, w, phase))
      && (v.err != Nil && v.err != Waiting <==> SaysWrong(n, w, phase))
  {
    StagesRead(n, w);
    FitsMeans(n, w, phase);
    OnlyOneStage(n, w, phase);
    hide Reports, ReportsAgain, ReportsSome, ReportsSomeAgain, Fits, StageAllowed;
  }

  lemma StagesRead(n: Node, w: World)
    ensures forall stage :: (StageFromOutput(n, w) == Good(stage) <==> Reports(n, w, stage))
    ensures forall stage :: (StageFromPeriodic(n, w) == Good(stage) <==> ReportsAgain(n, w, stage))
    ensures StageFromOutput(n, w).Good? <==> ReportsSome(n, w)
    ensures StageFromPeriodic(n, w).Good? <==> ReportsSomeAgain(n, w)
    ensures StageFromOutput(n, w).Bad? ==> StageFromOutput(n, w).err == Waiting
    ensures StageFromPeriodic(n, w).Bad? ==>
      if "secrets-encrypt-status" !in n.periodicOutput &&
         (forall i :: 0 <= i < |n.plan.periodic| ==> n.plan.periodic[i].name != "secrets-encrypt-status")
      then StageFromPeriodic(n, w).err == Other else StageFromPeriodic(n, w).err == Waiting
  {
    if StageFromOutput(n, w).Good? { assert Reports(n, w, StageFromOutput(n, w).value); }
    if StageFromPeriodic(n, w).Good? { assert ReportsAgain(n, w, StageFromPeriodic(n, w).value); }
  }

  lemma FitsMeans(n: Node, w: World, phase: KeyPhase)
    ensures StageFromOutput(n, w).Good? ==> (StageAllowed(StageFromOutput(n, w).value, phase) <==> Fits(n, w, phase))
    ensures Fits(n, w, phase) ==> StageFromOutput(n, w).Good?
  {
  }

  lemma OnlyOneStage(n: Node, w: World, phase: KeyPhase)
    ensures Fits(n, w, phase) && phase != Reencrypt ==>
      !Reports(n, w, "reencrypt_request") && !Reports(n, w, "reencrypt_active")
    ensures Fits(n, w, Reencrypt) && !Reports(n, w, "reencrypt_finished") ==>
      Reports(n, w, "reencrypt_request") || Reports(n, w, "reencrypt_active")
    ensures Reports(n, w, "reencrypt_finished") ==>
      !Reports(n, w, "reencrypt_request") && !Reports(n, w, "reencrypt_active")
  {
  }

  /** The leader's command ends without an error exactly when its plan is applied, healthy and not failed, and the
      outputs of the leader say that it is done. */
  lemma CommandNil(s: Status, phase: KeyPhase, c: Cluster, joinServer: string, leader: string, w: World)
    requires leader in c.secrets
    ensures Commanded(s, phase, c, joinServer, leader, w).err == Nil <==>
      Completed(c, leader, CommandJob(phase, joinServer), w) && SaysDone(c.nodes[leader], w, phase)
  {
    hide Assigned, CommandVerdict, SaysDone, SaysWrong;
    AssignedNil(c, leader, CommandJob(phase, joinServer), w);
    if leader in c.nodes { VerdictMeans(s, phase, c.nodes[leader], w); }
  }

  lemma PhaseSaysDone(cp: Object, c: Cluster, joinServer: string, leader: string, initNode: string, w: World)
    requires leader in c.secrets && initNode in c.secrets && Commands(cp.status.keyPhase)
    ensures WentOn(InPhase(cp, cp.status, c, joinServer, leader, initNode, w), cp.status.keyPhase) ==>
      leader in c.nodes && SaysDone(c.nodes[leader], w, cp.status.keyPhase)
  {
    hide Commanded, SaysDone, Completed;
    CommandNil(cp.status, cp.status.keyPhase, c, joinServer, leader, w);
    CommandedPersists(cp.status, cp.status.keyPhase, c, joinServer, leader, w);
    CompletedHasNode(c, leader, CommandJob(cp.status.keyPhase, joinServer), w);
  }

  lemma CompletedHasNode(c: Cluster, m: string, job: Job, w: World)
    ensures Completed(c, m, job, w) ==> m in c.nodes
  {
  }

  lemma StageSaysDone(cp: Object, c: Cluster, w: World)
    requires Commands(cp.status.keyPhase)
    ensures WentOn(KeyStage(cp, cp.status, c, w), cp.status.keyPhase) ==>
      cp.status.keyLeader in c.nodes && SaysDone(c.nodes[cp.status.keyLeader], w, cp.status.keyPhase)
  {
    hide FoundInitNode, CanRotate, InPhase, Matches, SaysDone, InitNodeRuns.Relabelled, Leader;
    InitNodeRuns.FoundRelabels(c, cp.fixedInitNode);
    var f := FoundInitNode(c, cp.fixedInitNode);
    if f.err == Nil && cp.spec.keys.Some? {
      FoundHasSecret(c, cp.fixedInitNode);
      LeaderHasSecret(cp.status, c, f.node.value);
      if Leader(cp.status, c, f.node.value) == Some(cp.status.keyLeader) {
        PhaseSaysDone(cp, c, f.joinURL, cp.status.keyLeader, f.node.value, w);
      }
    }
  }

  /** A persisted pass leaves a phase with a command only when the outputs of the leader say that it is done; so the
      nodes restart after a re-encryption only when one of the two outputs reports that it has finished. */
  lemma CommandIsDone(cp: Object, c: Cluster, w: World)
    requires Commands(cp.status.keyPhase)
    ensures Persisted(cp, c, w).cp.status.keyPhase == NextPhase(cp.status.keyPhase) ==>
      cp.status.keyLeader in c.nodes && SaysDone(c.nodes[cp.status.keyLeader], w, cp.status.keyPhase)
  {
    hide Persisted, Acting, KeyStage, Planned, SaysDone;
    PersistedMeans(cp, c, w);
    OtherStagesKeepKeys(cp, c, w);
    StageSaysDone(cp, c, w);
  }

  /** The leader gets one attempt at a command, and every machine five at a restart. */
  lemma AttemptsAreLimited(s: Status, phase: KeyPhase, c: Cluster, joinServer: string, m: string, scrape: bool,
                           leaderStage: string, w: World, x: string)
    requires m in c.secrets && x in c.secrets
    ensures var c' := Commanded(s, phase, c, joinServer, m, w).cluster;
      x in c'.secrets && LimitedTo(c.secrets[x], c'.secrets[x], 1, 1)
    ensures var c' := ServiceRestarted(s, phase, c, joinServer, m, scrape, leaderStage, w).cluster;
      x in c'.secrets && LimitedTo(c.secrets[x], c'.secrets[x], 5, 5)
  {
    hide Assigned, Matches;
    AssignedLimits(c, m, CommandJob(phase, joinServer), w, x);
    AssignedLimits(c, m, RestartJob(phase, joinServer, leaderStage), w, x);
  }

  // ---------------------------------------------------------------- the order of the restarts

  /** The machine has applied a restart plan of this phase, healthy and not failed. */
  ghost predicate HasRestarted(c: Cluster, m: string, phase: KeyPhase, joinServer: string, w: World) {
    exists stage :: Completed(c, m, RestartJob(phase, joinServer, stage), w)
  }

  /** The first k machines of the row have restarted, and only the next one, if any, is touched. */
  ghost predicate UpTo(c: Cluster, c': Cluster, row: seq<string>, k: nat, phase: KeyPhase, joinServer: string, w: World)
  {
    && k <= |row|
    && (forall i :: 0 <= i < k ==> HasRestarted(c, row[i], phase, joinServer, w))
    && OnlyTouches(c, c', if k < |row| then {row[k]} else {})
  }

  lemma UpToLeft(c: Cluster, c': Cluster, xs: seq<string>, ys: seq<string>, k: nat, phase: KeyPhase,
                 joinServer: string, w: World)
    requires UpTo(c, c', xs, k, phase, joinServer, w) && k < |xs|
    ensures UpTo(c, c', xs + ys, k, phase, joinServer, w)
  {
    hide OnlyTouches, HasRestarted;
    assert forall i :: 0 <= i <= k ==> (xs + ys)[i] == xs[i];
  }

  lemma UpToRight(c: Cluster, c': Cluster, c'': Cluster, xs: seq<string>, ys: seq<string>, k: nat, phase: KeyPhase,
                  joinServer: string, w: World)
    requires UpTo(c, c', xs, |xs|, phase, joinServer, w) && UpTo(c, c'', ys, k, phase, joinServer, w)
    ensures UpTo(c, c'', xs + ys, |xs| + k, phase, joinServer, w)
  {
    hide OnlyTouches, HasRestarted;
    forall i | 0 <= i < |xs| + k ensures HasRestarted(c, (xs + ys)[i], phase, joinServer, w) {
      if i >= |xs| { assert (xs + ys)[i] == ys[i - |xs|]; }
    }
  }

  lemma ServiceTouches(s: Status, phase: KeyPhase, c: Cluster, joinServer: string, m: string, scrape: bool,
                       leaderStage: string, w: World)
    requires m in c.secrets
    ensures var r := ServiceRestarted(s, phase, c, joinServer, m, scrape, leaderStage, w);
      OnlyTouches(c, r.cluster, {m}) && (r.err == Nil ==> HasRestarted(c, m, phase, joinServer, w) && r.cluster == c)
    ensures var r := FollowerRestarted(s, phase, c, joinServer, m, scrape, leaderStage, w);
      OnlyTouches(c, r.cluster, {m}) && (r.err == Nil ==> HasRestarted(c, m, phase, joinServer, w) && r.cluster == c)
  {
    hide Assigned, Matches, Completed;
    AssignedNil(c, m, RestartJob(phase, joinServer, leaderStage), w);
  }

  lemma {:induction false} FollowersUpTo(s: Status, phase: KeyPhase, c: Cluster, joinServer: string,
                                         names: seq<string>, scrape: bool, leaderStage: string, w: World)
    returns (k: nat)
    requires Listed(c, names)
    ensures var r := FollowersRestarted(s, phase, c, joinServer, names, scrape, leaderStage, w);
      UpTo(c, r.cluster, names, k, phase, joinServer, w) && (r.err == Nil <==> k == |names|)
    decreases |names|
  {
    hide FollowerRestarted, HasRestarted, UpTo, OnlyTouches;
    k := 0;
    if names == [] {
      UpToEmpty(c, phase, joinServer, w);
    } else {
      var m, rest := names[0], names[1..];
      var one := FollowerRestarted(s, phase, c, joinServer, m, scrape, leaderStage, w);
      ServiceTouches(s, phase, c, joinServer, m, scrape, leaderStage, w);
      if one.err != Nil {
        UpToNone(c, one.cluster, names, phase, joinServer, w);
      } else {
        var j := FollowersUpTo(s, phase, c, joinServer, rest, scrape, leaderStage, w);
        UpToOne(c, m, phase, joinServer, w);
        assert names == [m] + rest;
        var r := FollowersRestarted(s, phase, c, joinServer, names, scrape, leaderStage, w);
        UpToRight(c, c, r.cluster, [m], rest, j, phase, joinServer, w);
        k := 1 + j;
      }
    }
  }

  lemma UpToEmpty(c: Cluster, phase: KeyPhase, joinServer: string, w: World)
    ensures UpTo(c, c, [], 0, phase, joinServer, w)
  {
  }

  lemma LeaderUpTo(cp: Object, s: Status, c: Cluster, joinServer: string, leader: string, w: World) returns (k: nat)
    requires leader in c.secrets && cp.status.keyLeader == leader
    ensures var r := LeaderRestarted(cp, s, c, joinServer, leader, w);
      var row := [leader] + Collected(c, OtherControlPlane(leader));
      UpTo(c, r.cluster, row, k, cp.status.keyPhase, joinServer, w) && (r.err == Nil <==> k == |row|)
  {
    hide ServiceRestarted, FollowersRestarted, UpTo, HasRestarted, Matches;
    var phase := cp.status.keyPhase;
    OthersListed(c, leader);
    var others := Collected(c, OtherControlPlane(leader));
    var first := ServiceRestarted(s, phase, c, joinServer, leader, true, "", w);
    ServiceTouches(s, phase, c, joinServer, leader, true, "", w);
    assert [leader][0] == leader;
    if first.err != Nil {
      k := 0;
      UpToNone(c, first.cluster, [leader], phase, joinServer, w);
      UpToLeft(c, first.cluster, [leader], others, 0, phase, joinServer, w);
    } else {
      UpToOne(c, leader, phase, joinServer, w);
      var j := FollowersUpTo(s, phase, c, joinServer, others, true, first.stage, w);
      k := 1 + j;
      UpToRight(c, c, LeaderRestarted(cp, s, c, joinServer, leader, w).cluster, [leader], others, j, phase, joinServer,
                w);
    }
  }

  lemma UpToNone(c: Cluster, c': Cluster, row: seq<string>, phase: KeyPhase, joinServer: string, w: World)
    requires row != [] && OnlyTouches(c, c', {row[0]})
    ensures UpTo(c, c', row, 0, phase, joinServer, w)
  {
    hide OnlyTouches;
  }

  lemma UpToOne(c: Cluster, m: string, phase: KeyPhase, joinServer: string, w: World)
    requires HasRestarted(c, m, phase, joinServer, w)
    ensures UpTo(c, c, [m], 1, phase, joinServer, w)
  {
    hide HasRestarted;
  }

  /** What comes before the leader, when the leader is not the init node. */
  ghost function FirstRestarted(cp: Object, s: Status, c: Cluster, joinServer: string, leader: string,
                                initNode: string, w: World): Stage
    requires initNode in c.secrets
  {
    var init := FollowerRestarted(s, cp.status.keyPhase, c, joinServer, initNode, false, "", w);
    if init.err != Nil then init else
    OthersListed(c, leader);
    FollowersRestarted(s, cp.status.keyPhase, c, joinServer, Collected(c, OtherEtcd(leader)), false, "", w)
  }

  lemma FirstUpTo(cp: Object, s: Status, c: Cluster, joinServer: string, leader: string, initNode: string, w: World)
    returns (k: nat)
    requires initNode in c.secrets
    ensures var r := FirstRestarted(cp, s, c, joinServer, leader, initNode, w);
      var row := [initNode] + Collected(c, OtherEtcd(leader));
      UpTo(c, r.cluster, row, k, cp.status.keyPhase, joinServer, w) && (r.err == Nil <==> k == |row|)
  {
    hide FollowerRestarted, FollowersRestarted, UpTo, HasRestarted, Matches;
    var phase := cp.status.keyPhase;
    OthersListed(c, leader);
    var etcds := Collected(c, OtherEtcd(leader));
    assert [initNode][0] == initNode;
    ServiceTouches(s, phase, c, joinServer, initNode, false, "", w);
    var init := FollowerRestarted(s, phase, c, joinServer, initNode, false, "", w);
    if init.err != Nil {
      k := 0;
      UpToNone(c, init.cluster, [initNode], phase, joinServer, w);
      UpToLeft(c, init.cluster, [initNode], etcds, 0, phase, joinServer, w);
    } else {
      UpToOne(c, initNode, phase, joinServer, w);
      var i := FollowersUpTo(s, phase, c, joinServer, etcds, false, "", w);
      k := 1 + i;
      UpToRight(c, c, FollowersRestarted(s, phase, c, joinServer, etcds, false, "", w).cluster, [initNode], etcds, i,
                phase, joinServer, w);
    }
  }

  lemma FirstThenLeader(cp: Object, s: Status, c: Cluster, joinServer: string, leader: string, initNode: string,
                        w: World)
    requires leader in c.secrets && initNode in c.secrets && cp.status.keyLeader == leader
    ensures var first := FirstRestarted(cp, s, c, joinServer, leader, initNode, w);
      NodesRestarted(cp, s, c, joinServer, leader, initNode, w) ==
      if !Matches(c, Filter.InitNode, leader) && first.err != Nil then first
      else LeaderRestarted(cp, s, c, joinServer, leader, w)
    ensures FirstRestarted(cp, s, c, joinServer, leader, initNode, w).err == Nil ==>
      FirstRestarted(cp, s, c, joinServer, leader, initNode, w).cluster == c
  {
    hide LeaderRestarted, FollowerRestarted, FollowersRestarted, Matches;
    OthersListed(c, leader);
  }

  /** The restarts go by the restart order: only the first machine that has not restarted is touched, and they end
      without an error only when all have. */
  lemma RestartsInOrder(cp: Object, s: Status, c: Cluster, joinServer: string, leader: string, initNode: string,
                        w: World)
    returns (k: nat)
    requires leader in c.secrets && initNode in c.secrets && cp.status.keyLeader == leader
    ensures var r, row := NodesRestarted(cp, s, c, joinServer, leader, initNode, w), RestartOrder(c, leader, initNode);
      UpTo(c, r.cluster, row, k, cp.status.keyPhase, joinServer, w) && (r.err == Nil <==> k == |row|)
  {
    hide LeaderRestarted, FirstRestarted, NodesRestarted, UpTo, Matches;
    var phase := cp.status.keyPhase;
    var before := [initNode] + Collected(c, OtherEtcd(leader));
    var last := [leader] + Collected(c, OtherControlPlane(leader));
    FirstThenLeader(cp, s, c, joinServer, leader, initNode, w);
    var first := FirstRestarted(cp, s, c, joinServer, leader, initNode, w);
    var done := LeaderRestarted(cp, s, c, joinServer, leader, w).cluster;
    var j := LeaderUpTo(cp, s, c, joinServer, leader, w);
    if Matches(c, Filter.InitNode, leader) {
      k := j;
      assert RestartOrder(c, leader, initNode) == last;
    } else {
      var i := FirstUpTo(cp, s, c, joinServer, leader, initNode, w);
      assert RestartOrder(c, leader, initNode) == before + last;
      UpToBound(c, first.cluster, before, i, phase, joinServer, w);
      UpToBound(c, done, last, j, phase, joinServer, w);
      if first.err != Nil {
        k := i;
        UpToLeft(c, first.cluster, before, last, i, phase, joinServer, w);
      } else {
        k := |before| + j;
        UpToRight(c, c, done, before, last, j, phase, joinServer, w);
      }
    }
  }

  lemma UpToBound(c: Cluster, c': Cluster, row: seq<string>, k: nat, phase: KeyPhase, joinServer: string, w: World)
    requires UpTo(c, c', row, k, phase, joinServer, w)
    ensures k <= |row|
  {
  }

  // ---------------------------------------------------------------- the leader, and the conditions of a move

  /** A control-plane machine that is not deleting and has a ready node. */
  predicate Suitable(c: Cluster, m: string) {
    && m in c.machines && m in c.secrets && c.secrets[m].labels.controlPlane
    && !c.machines[m].deleting && c.machines[m].nodeRef.Some? && c.machines[m].ready
  }

  lemma SuitableMeans(c: Cluster, m: string)
    ensures Matches(c, SUITABLE, m) <==> Suitable(c, m)
  {
    AndMeans(c, HasNodeRef, MachineReady, m);
    NotMeans(c, Deleting, m);
    AndMeans(c, Not(Deleting), And(HasNodeRef, MachineReady), m);
    AndMeans(c, Filter.ControlPlane, And(Not(Deleting), And(HasNodeRef, MachineReady)), m);
  }

  /** The recorded leader leads for as long as it is suitable. Otherwise the preparation, and no other phase, has the
      init node lead, if it is of the control plane, or else the first suitable machine by name. */
  lemma LeaderMeans(s: Status, c: Cluster, initNode: string)
    ensures var leader := Leader(s, c, initNode);
      if Suitable(c, s.keyLeader) then leader == Some(s.keyLeader)
      else if s.keyPhase != Prepare then leader == None
      else if initNode in c.secrets && c.secrets[initNode].labels.controlPlane then leader == Some(initNode)
      else
        && (leader.None? <==> forall m :: !Suitable(c, m))
        && (leader.Some? ==>
              Suitable(c, leader.value) &&
              forall m :: Suitable(c, m) ==> m == leader.value || Names.Less(leader.value, m))
  {
    ControlPlaneMeans(c, initNode);
    hide Matches;
    SuitableMeans(c, s.keyLeader);
    CollectedHead(c, SUITABLE);
    forall m ensures m in c.machines && Matches(c, SUITABLE, m) <==> Suitable(c, m) { SuitableMeans(c, m); }
    var machines := Collected(c, SUITABLE);
    if machines != [] { assert machines[0] in machines; }
  }

  lemma ControlPlaneMeans(c: Cluster, m: string)
    ensures Matches(c, Filter.ControlPlane, m) <==> m in c.secrets && c.secrets[m].labels.controlPlane
  {
  }

  /** What has to be so for the stage to start the rotation, to leave its preparation, and to end it. */
  lemma StageConditions(cp: Object, c: Cluster, w: World)
    ensures var s, r := cp.status, KeyStage(cp, cp.status, c, w);
      Persists(r.err) ==>
        && (r.status.keyPhase == Prepare != s.keyPhase ==>
              s.readyCondition == Yes && s.initialized && w.keysSupported == Good(true))
        && (s.keyPhase == Prepare && r.status.keyPhase == PostPrepareRestart ==> w.pause)
        && (s.keyPhase == PostReencryptRestart && r.status.keyPhase == KeysDone ==> w.unpause)
  {
    hide FoundInitNode, Matches, Commanded, NodesRestarted, Leader;
    var f := FoundInitNode(c, cp.fixedInitNode);
    if f.err == Nil && cp.spec.keys.Some? {
      FoundHasSecret(c, cp.fixedInitNode);
      LeaderHasSecret(cp.status, f.cluster, f.node.value);
      var leader := Leader(cp.status, f.cluster, f.node.value);
      if leader.Some? {
        CommandedPersists(cp.status, cp.status.keyPhase, f.cluster, f.joinURL, leader.value, w);
        RestartPersists(cp, cp.status, f.cluster, f.joinURL, leader.value, f.node.value, w);
      }
    }
  }

  /** The persisted rotation only starts for an initialized and ready cluster of a release that supports it; it leaves
      its preparation only once the cluster could be paused, and ends only once it could be unpaused. */
  lemma MovesAreAllowed(cp: Object, c: Cluster, w: World)
    ensures var s, s' := cp.status, Persisted(cp, c, w).cp.status;
      && (s'.keyPhase == Prepare != s.keyPhase ==>
            s.readyCondition == Yes && s.initialized && w.keysSupported == Good(true))
      && (s.keyPhase == Prepare && s'.keyPhase == PostPrepareRestart ==> w.pause)
      && (s.keyPhase == PostReencryptRestart && s'.keyPhase == KeysDone ==> w.unpause)
  {
    hide Persisted, Acting, KeyStage, Planned;
    PersistedMeans(cp, c, w);
    OtherStagesKeepKeys(cp, c, w);
    StageConditions(cp, c, w);
  }

  lemma StageChooses(cp: Object, c: Cluster, w: World)
    ensures var s, r := cp.status, KeyStage(cp, cp.status, c, w);
      Persists(r.err) && r.status.keyLeader != s.keyLeader && r.status.keyLeader != "" ==>
        && s.keyPhase == Prepare && !Suitable(c, s.keyLeader)
        && (Suitable(c, r.status.keyLeader) ||
            (r.status.keyLeader in c.secrets && c.secrets[r.status.keyLeader].labels.controlPlane &&
             c.secrets[r.status.keyLeader].labels.initNode == "true"))
  {
    hide FoundInitNode, Matches, Commanded, NodesRestarted, Leader, InPhase, InitNodeRuns.Relabelled, Suitable;
    var f := FoundInitNode(c, cp.fixedInitNode);
    InitNodeRuns.FoundRelabels(c, cp.fixedInitNode);
    if f.err == Nil && cp.spec.keys.Some? {
      FoundHasSecret(c, cp.fixedInitNode);
      LeaderHasSecret(cp.status, c, f.node.value);
      LeaderMeans(cp.status, c, f.node.value);
      FoundIsInitNode(c, cp.fixedInitNode);
      var leader := Leader(cp.status, c, f.node.value);
      if leader == Some(cp.status.keyLeader) { PhaseKeepsLeader(cp, c, f.joinURL, f.node.value, w); }
    }
  }

  lemma FoundIsInitNode(c: Cluster, fixed: string)
    requires FoundInitNode(c, fixed).err == Nil && FoundInitNode(c, fixed).node.Some?
    ensures var m := FoundInitNode(c, fixed).node.value;
      m in c.secrets && c.secrets[m].labels.initNode == "true"
  {
    hide ClearedMarks;
    InitNodeRuns.FoundRelabels(c, fixed);
    if fixed != "" {
      var entries := Collected(c, LabelledId(fixed));
      assert entries[0] in entries;
    } else {
      var entries := Collected(c, Filter.InitNode);
      assert entries[0] in entries;
    }
  }

  lemma PhaseKeepsLeader(cp: Object, c: Cluster, joinServer: string, initNode: string, w: World)
    requires cp.status.keyLeader in c.secrets && initNode in c.secrets && cp.spec.keys.Some?
    ensures var r := InPhase(cp, cp.status, c, joinServer, cp.status.keyLeader, initNode, w);
      Persists(r.err) ==> r.status.keyLeader == cp.status.keyLeader || r.status.keyLeader == ""
  {
    hide InPhase;
    PhaseMoves(cp, c, joinServer, cp.status.keyLeader, initNode, w);
  }

  /** A persisted pass records a new leader only during the preparation and when the recorded one is not suitable; the
      new one is suitable, or is the init node and of the control plane. */
  lemma NewLeaderIsSuitable(cp: Object, c: Cluster, w: World)
    ensures var s, leader := cp.status, Persisted(cp, c, w).cp.status.keyLeader;
      leader != s.keyLeader && leader != "" ==>
        && s.keyPhase == Prepare && !Suitable(c, s.keyLeader)
        && (Suitable(c, leader) ||
            (leader in c.secrets && c.secrets[leader].labels.controlPlane &&
             c.secrets[leader].labels.initNode == "true"))
  {
    hide Persisted, Acting, KeyStage, Planned, Suitable;
    PersistedMeans(cp, c, w);
    OtherStagesKeepKeys(cp, c, w);
    StageChooses(cp, c, w);
  }

  // ---------------------------------------------------------------- what is earned is granted

  lemma FollowsRestarts(s: Status, phase: KeyPhase, c: Cluster, joinServer: string, m: string, scrape: bool,
                        leaderStage: string, w: World)
    requires m in c.secrets && Follows(c, m, phase, joinServer, scrape, leaderStage, w)
    requires scrape ==> Matches(c, Filter.ControlPlane, m)
    ensures FollowerRestarted(s, phase, c, joinServer, m, scrape, leaderStage, w).err == Nil
  {
    hide Matches, Assigned;
    AssignedNil(c, m, RestartJob(phase, joinServer, leaderStage), w);
  }

  lemma {:induction false} AllFollow(s: Status, phase: KeyPhase, c: Cluster, joinServer: string, names: seq<string>,
                                     scrape: bool, leaderStage: string, w: World)
    requires Listed(c, names)
    requires forall m :: m in names ==> Follows(c, m, phase, joinServer, scrape, leaderStage, w)
    requires scrape ==> forall m :: m in names ==> Matches(c, Filter.ControlPlane, m)
    ensures FollowersRestarted(s, phase, c, joinServer, names, scrape, leaderStage, w).err == Nil
    decreases |names|
  {
    hide FollowerRestarted, Follows, Matches;
    if names != [] {
      assert names[0] in names && forall m :: m in names[1..] ==> m in names;
      FollowsRestarts(s, phase, c, joinServer, names[0], scrape, leaderStage, w);
      AllFollow(s, phase, c, joinServer, names[1..], scrape, leaderStage, w);
    }
  }

  lemma LeaderFollows(s: Status, phase: KeyPhase, c: Cluster, joinServer: string, leader: string, stage: string,
                      w: World)
    requires leader in c.secrets && Matches(c, Filter.ControlPlane, leader)
    requires Completed(c, leader, RestartJob(phase, joinServer, ""), w)
    requires StageFromOutput(c.nodes[leader], w) == Good(stage)
    ensures var r := ServiceRestarted(s, phase, c, joinServer, leader, true, "", w);
      r.err == Nil && r.stage == stage
  {
    hide Matches, Assigned;
    AssignedNil(c, leader, RestartJob(phase, joinServer, ""), w);
  }

  /** The other way round to the restart barrier: once all have restarted, the restart phase ends without an error. */
  lemma RestartedIsNil(cp: Object, s: Status, c: Cluster, joinServer: string, leader: string, initNode: string,
                       stage: string, w: World)
    requires leader in c.secrets && initNode in c.secrets && cp.status.keyLeader == leader
    requires leader in c.machines && Matches(c, Filter.ControlPlane, leader)
    requires Matches(c, Filter.InitNode, initNode)
    requires AllRestarted(c, cp.status.keyPhase, joinServer, leader, initNode, stage, w)
    ensures NodesRestarted(cp, s, c, joinServer, leader, initNode, w).err == Nil
  {
    hide Matches, ServiceRestarted, FollowerRestarted, FollowersRestarted, Follows, StageFromOutput, Completed;
    var phase := cp.status.keyPhase;
    OthersListed(c, leader);
    var etcds, controlPlanes := Collected(c, OtherEtcd(leader)), Collected(c, OtherControlPlane(leader));
    forall m ensures m in etcds ==> m !in controlPlanes && m != leader
             ensures m in controlPlanes ==> m != leader && Matches(c, Filter.ControlPlane, m)
             ensures m == initNode ==> m !in controlPlanes
    {
      OtherMeans(c, leader, m);
    }
    Joined([leader], controlPlanes);
    Joined([initNode], etcds);
    Joined([initNode] + etcds, [leader] + controlPlanes);
    var order := RestartOrder(c, leader, initNode);
    assert leader in order && forall m :: m in controlPlanes ==> m in order;
    LeaderFollows(s, phase, c, joinServer, leader, stage, w);
    AllFollow(s, phase, c, joinServer, controlPlanes, true, stage, w);
    if !Matches(c, Filter.InitNode, leader) {
      assert initNode in order && forall m :: m in etcds ==> m in order;
      FollowsRestarts(s, phase, c, joinServer, initNode, false, "", w);
      AllFollow(s, phase, c, joinServer, etcds, false, "", w);
    }
  }

  /** The work of the phase is done, and the cluster could be paused or unpaused as the phase asks. */
  ghost predicate WorkDone(c: Cluster, phase: KeyPhase, joinServer: string, leader: string, initNode: string,
                           stage: string, w: World) {
    && (if Commands(phase) then
          Completed(c, leader, CommandJob(phase, joinServer), w) && SaysDone(c.nodes[leader], w, phase)
        else AllRestarted(c, phase, joinServer, leader, initNode, stage, w))
    && (phase == Prepare ==> w.pause) && (phase == PostReencryptRestart ==> w.unpause)
  }

  lemma PhaseGrants(cp: Object, c: Cluster, joinServer: string, leader: string, initNode: string, stage: string,
                    w: World)
    requires leader in c.secrets && initNode in c.secrets && cp.status.keyLeader == leader && cp.spec.keys.Some?
    requires leader in c.machines && Matches(c, Filter.ControlPlane, leader) && Matches(c, Filter.InitNode, initNode)
    requires InProgress(cp.status.keyPhase) && WorkDone(c, cp.status.keyPhase, joinServer, leader, initNode, stage, w)
    ensures var r := InPhase(cp, cp.status, c, joinServer, leader, initNode, w);
      r.err == Waiting && r.status.keyPhase == NextPhase(cp.status.keyPhase)
  {
    hide Commanded, NodesRestarted, AllRestarted, SaysDone, Matches, Completed;
    var s, phase := cp.status, cp.status.keyPhase;
    if Commands(phase) {
      CommandNil(s, phase, c, joinServer, leader, w);
      CommandedPersists(s, phase, c, joinServer, leader, w);
    } else {
      RestartedIsNil(cp, s, c, joinServer, leader, initNode, stage, w);
      RestartPersists(cp, s, c, joinServer, leader, initNode, w);
    }
  }

  /** The rotation that the spec asks for is under way, on a supported release, with an init node that can be joined and
      a suitable leader on record. */
  ghost predicate RotatesKeys(cp: Object, c: Cluster, w: World) {
    var f := FoundInitNode(c, cp.fixedInitNode);
    && cp.spec.keys.Some? && cp.status.keys == cp.spec.keys && InProgress(cp.status.keyPhase)
    && w.keysSupported == Good(true) && cp.status.initialized
    && f.err == Nil && f.node.Some? && f.joinURL != "" && Suitable(c, cp.status.keyLeader)
  }

  lemma StageGrants(cp: Object, c: Cluster, stage: string, w: World)
    requires RotatesKeys(cp, c, w)
    ensures var f, r := FoundInitNode(c, cp.fixedInitNode), KeyStage(cp, cp.status, c, w);
      WorkDone(c, cp.status.keyPhase, f.joinURL, cp.status.keyLeader, f.node.value, stage, w) ==>
        r.err == Waiting && r.status.keyPhase == NextPhase(cp.status.keyPhase)
  {
    hide FoundInitNode, InPhase, Leader, Matches, WorkDone, InitNodeRuns.Relabelled;
    InitNodeRuns.FoundRelabels(c, cp.fixedInitNode);
    var f := FoundInitNode(c, cp.fixedInitNode);
    FoundHasSecret(c, cp.fixedInitNode);
    FoundIsInitNode(c, cp.fixedInitNode);
    LeaderHasSecret(cp.status, c, f.node.value);
    LeaderMeans(cp.status, c, f.node.value);
    if WorkDone(c, cp.status.keyPhase, f.joinURL, cp.status.keyLeader, f.node.value, stage, w) {
      RolesOf(c, cp.status.keyLeader, f.node.value);
      PhaseGrants(cp, c, f.joinURL, cp.status.keyLeader, f.node.value, stage, w);
    }
  }

  lemma RolesOf(c: Cluster, leader: string, initNode: string)
    requires Suitable(c, leader) && initNode in c.secrets && c.secrets[initNode].labels.initNode == "true"
    ensures Matches(c, Filter.ControlPlane, leader) && Matches(c, Filter.InitNode, initNode)
  {
  }

  /** None of the operations before the key rotation has anything to do. */
  ghost predicate OthersRest(cp: Object, c: Cluster, w: World) {
    && SnapshotCreate.Created(cp, cp.status, c, w).err == Nil
    && SnapshotRestore.RestoreStage(cp, cp.status, c, w).err == Nil
    && CertificateRotation.RotationStage(cp, cp.status, c, w).err == Nil
  }

  lemma KeysAct(cp: Object, c: Cluster, w: World)
    requires OthersRest(cp, c, w) && Planned(cp, c, w) && w.saved
    ensures var r := KeyStage(cp, cp.status, c, w);
      r.err == Waiting ==> Persisted(cp, c, w).cp.status.keyPhase == r.status.keyPhase
  {
    hide SnapshotCreate.Created, SnapshotRestore.RestoreStage, CertificateRotation.RotationStage, KeyStage, Ordinary,
         Sane, Processed;
    ProcessedMeans(cp, c, w);
  }

  /** A pass that gets to the key rotation and can store its status takes it on once the work of the phase is done. */
  lemma DoneIsGranted(cp: Object, c: Cluster, stage: string, w: World)
    requires OthersRest(cp, c, w) && Planned(cp, c, w) && w.saved && RotatesKeys(cp, c, w)
    ensures var f := FoundInitNode(c, cp.fixedInitNode);
      WorkDone(c, cp.status.keyPhase, f.joinURL, cp.status.keyLeader, f.node.value, stage, w) ==>
        Persisted(cp, c, w).cp.status.keyPhase == NextPhase(cp.status.keyPhase)
  {
    hide Persisted, KeyStage, Planned, WorkDone, OthersRest, FoundInitNode;
    StageGrants(cp, c, stage, w);
    KeysAct(cp, c, w);
  }

  /** A rotation is due: the spec asks for one that is neither under way nor over, on a supported release, and the
      cluster is initialized and ready, with an init node that can be joined. */
  ghost predicate RotationIsDue(cp: Object, c: Cluster, w: World) {
    var f, s := FoundInitNode(c, cp.fixedInitNode), cp.status;
    && cp.spec.keys.Some? && w.keysSupported == Good(true) && s.initialized && s.readyCondition == Yes
    && !InProgress(s.keyPhase) && (s.keyPhase == KeysDone || s.keyPhase == KeysFailed ==> s.keys != cp.spec.keys)
    && !MissesRecord(cp) && f.err == Nil && f.joinURL != ""
  }

  /** A pass that gets to the key rotation and can store its status starts one exactly when it is due. */
  lemma DueIsStarted(cp: Object, c: Cluster, w: World)
    requires OthersRest(cp, c, w) && Planned(cp, c, w) && w.saved && !InProgress(cp.status.keyPhase)
    ensures Persisted(cp, c, w).cp.status.keyPhase == Prepare <==> RotationIsDue(cp, c, w)
  {
    hide Persisted, Planned, Acting, InPhase, FoundInitNode, Leader, SnapshotCreate.Created,
         SnapshotRestore.RestoreStage, CertificateRotation.RotationStage, InitNodeRuns.Relabelled;
    InitNodeRuns.FoundRelabels(c, cp.fixedInitNode);
    FoundHasSecret(c, cp.fixedInitNode);
    PersistedMeans(cp, c, w);
    OtherStagesKeepKeys(cp, c, w);
    KeysAct(cp, c, w);
    KeyStageStarts(cp, c, w);
  }

  lemma KeyStageStarts(cp: Object, c: Cluster, w: World)
    requires !InProgress(cp.status.keyPhase)
    ensures var r := KeyStage(cp, cp.status, c, w);
      && (Persists(r.err) && r.status.keyPhase == Prepare <==> RotationIsDue(cp, c, w))
      && (RotationIsDue(cp, c, w) ==> r.err == Waiting)
  {
    hide InPhase, FoundInitNode, Leader, InitNodeRuns.Relabelled, Matches;
    InitNodeRuns.FoundRelabels(c, cp.fixedInitNode);
    var f := FoundInitNode(c, cp.fixedInitNode);
    if f.err == Nil && cp.spec.keys.Some? {
      FoundHasSecret(c, cp.fixedInitNode);
      LeaderHasSecret(cp.status, c, f.node.value);
      var leader := Leader(cp.status, c, f.node.value);
      if leader.Some? { IdlePhase(cp, c, f.joinURL, leader.value, f.node.value, w); }
    }
  }

  lemma IdlePhase(cp: Object, c: Cluster, joinServer: string, leader: string, initNode: string, w: World)
    requires leader in c.secrets && initNode in c.secrets && !InProgress(cp.status.keyPhase)
    ensures InPhase(cp, cp.status, c, joinServer, leader, initNode, w) == Stage(cp.status, c, Other)
  {
  }
}
