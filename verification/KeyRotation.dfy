/** The phase machine of encryption-key rotation. */
module KeyRotation {
  import opened Model
  import opened PlanEntry
  import opened Store
  import opened Scheduler
  import opened InitNode
  import opened ControlPlane

  // ---------------------------------------------------------------- the state in the status

  datatype Setting = Setting(status: Status, err: Err)

  function SetState(s: Status, keys: Option<int>, phase: KeyPhase): Setting {
    if s.keys == keys && s.keyPhase == phase then Setting(s, Nil)
    else Setting(s.(keys := keys, keyPhase := phase), Waiting)
  }

  function ResetState(s: Status): Setting {
    if s.keys.None? && s.keyPhase == NoKeyPhase then Setting(s, Nil) else SetState(s, None, NoKeyPhase)
  }

  predicate InProgress(phase: KeyPhase) {
    phase == Prepare || phase == PostPrepareRestart || phase == Rotate || phase == PostRotateRestart ||
    phase == Reencrypt || phase == PostReencryptRestart
  }

  /** canRotateEncryptionKeys. */
  predicate CanRotate(cp: Object) {
    && (cp.status.readyCondition == Yes || InProgress(cp.status.keyPhase))
    && cp.spec.keys.Some?
    && !(cp.status.keys == cp.spec.keys && (cp.status.keyPhase == KeysDone || cp.status.keyPhase == KeysFailed))
  }

  /** shouldRestartEncryptionKeyRotation reads the recorded generation without a test that there is one. */
  predicate MissesRecord(cp: Object)
    requires cp.spec.keys.Some?
  {
    && cp.status.readyCondition == Yes && cp.spec.keys.value <= 0 && cp.status.keys.None?
    && (cp.status.keyPhase == KeysDone || cp.status.keyPhase == KeysFailed || cp.status.keyPhase == NoKeyPhase)
  }

  /** shouldRestartEncryptionKeyRotation. */
  predicate ShouldRestart(cp: Object)
    requires cp.spec.keys.Some? && !MissesRecord(cp)
  {
    && cp.status.readyCondition == Yes
    && (|| (cp.spec.keys.value > 0 && cp.status.keys.None?)
        || ((cp.status.keyPhase == KeysDone || cp.status.keyPhase == KeysFailed || cp.status.keyPhase == NoKeyPhase) &&
            cp.spec.keys.value != cp.status.keys.value)
        || !(InProgress(cp.status.keyPhase) || cp.status.keyPhase == KeysDone))
  }

  // ---------------------------------------------------------------- the leader

  const SUITABLE := And(Filter.ControlPlane, And(Not(Deleting), And(HasNodeRef, MachineReady)))

  /** encryptionKeyRotationFindLeader; the error is never nil when there is no leader. */
  ghost function Leader(s: Status, c: Cluster, initNode: string): Option<string> {
    if s.keyLeader in c.machines && Matches(c, SUITABLE, s.keyLeader) then Some(s.keyLeader)
    else if s.keyPhase != Prepare then None
    else if Matches(c, Filter.ControlPlane, initNode) then Some(initNode)
    else
      var machines := Collected(c, SUITABLE);
      if machines == [] then None else Some(machines[0])
  }

  method FindLeader(s: Status, c: Cluster, initNode: string) returns (leader: Option<string>)
    ensures leader == Leader(s, c, initNode)
  {
    hide Matches;
    if s.keyLeader in c.machines {
      if Matches(c, SUITABLE, s.keyLeader) {
        return Some(s.keyLeader);
      }
    }
    if s.keyPhase != Prepare {
      return None;
    }
    if !Matches(c, Filter.ControlPlane, initNode) {
      var machines := Collect(c, SUITABLE);
      if |machines| == 0 {
        return None;
      }
      return Some(machines[0]);
    }
    return Some(initNode);
  }

  // ---------------------------------------------------------------- reading the outcome

  const STATUS_COMMAND := "secrets-encrypt-status"

  /** The stage that a node's output reports, or the error of finding none. */
  function StageFromOutput(node: Node, w: World): Try<string> {
    if STATUS_COMMAND !in node.output then Bad(Waiting) else
    match w.stageOf(node.output[STATUS_COMMAND])
    case None => Bad(Waiting)
    case Some(stage) => Good(stage)
  }

  function StageFromPeriodic(node: Node, w: World): Try<string> {
    if STATUS_COMMAND !in node.periodicOutput then
      Bad(if exists i :: 0 <= i < |node.plan.periodic| && node.plan.periodic[i].name == STATUS_COMMAND
          then Waiting else Other)
    else
      match w.stageOf(node.periodicOutput[STATUS_COMMAND].stdout)
      case None => Bad(Waiting)
      case Some(stage) => Good(stage)
  }

  /** encryptionKeyRotationIsCurrentStageAllowed. */
  predicate StageAllowed(stage: string, phase: KeyPhase) {
    match phase
    case Prepare => stage == "prepare"
    case Rotate => stage == "rotate"
    case Reencrypt => stage == "reencrypt_request" || stage == "reencrypt_active" || stage == "reencrypt_finished"
    case _ => false
  }

  /** encryptionKeyRotationFailed. */
  function Failing(s: Status): Status {
    s.(keyPhase := KeysFailed)
  }

  // ---------------------------------------------------------------- the leader's command

  function CommandJob(phase: KeyPhase, joinServer: string): Job {
    Job(KeyCommand(phase), joinServer, 1, 1)
  }

  /** What the leader's outputs say once the command's plan has been applied. */
  function CommandVerdict(s: Status, phase: KeyPhase, node: Node, w: World): Setting {
    match StageFromOutput(node, w)
    case Bad(err) => Setting(s, err)
    case Good(stage) =>
      match StageFromPeriodic(node, w)
      case Bad(err) => Setting(s, err)
      case Good(periodic) =>
        if !StageAllowed(stage, phase) then Setting(Failing(s), Other)
        else if (stage == "reencrypt_request" || stage == "reencrypt_active") && periodic != "reencrypt_finished" then
          Setting(s, Waiting)
        else Setting(s, Nil)
  }

  /** encryptionKeyRotationLeaderPhaseReconcile, in one of the three phases with a command. */
  function Commanded(s: Status, phase: KeyPhase, c: Cluster, joinServer: string, leader: string, w: World): Stage
    requires leader in c.secrets
  {
    if RenderedFor(c, leader, KeyCommand(phase), joinServer, w).RenderFails? then
      Stage(s, c, Assigned(c, leader, CommandJob(phase, joinServer), w).err)
    else
      var a := Assigned(c, leader, CommandJob(phase, joinServer), w);
      if a.err == Waiting then Stage(s, a.cluster, Waiting)
      else if a.err != Nil then Stage(Failing(s), a.cluster, a.err)
      else
        assert leader in c.nodes by { AssignedNil(c, leader, CommandJob(phase, joinServer), w); }
        var v := CommandVerdict(s, phase, c.nodes[leader], w);
        Stage(v.status, a.cluster, v.err)
  }

  // ---------------------------------------------------------------- restarting the nodes

  function RestartJob(phase: KeyPhase, joinServer: string, leaderStage: string): Job {
    Job(KeyRestart(phase, leaderStage), joinServer, 5, 5)
  }

  /** A restart with the stage that was scraped from the machine, if it was. */
  datatype Restarting = Restarting(status: Status, cluster: Cluster, stage: string, err: Err)

  /** encryptionKeyRotationRestartService. */
  function ServiceRestarted(s: Status, phase: KeyPhase, c: Cluster, joinServer: string, m: string, scrape: bool,
                            leaderStage: string, w: World): (r: Restarting)
    requires m in c.secrets
    ensures r.err == Nil ==> r.status == s && r.cluster == c
  {
    var job := RestartJob(phase, joinServer, leaderStage);
    AssignedNil(c, m, job, w);
    var a := Assigned(c, m, job, w);
    if RenderedFor(c, m, job.purpose, joinServer, w).RenderFails? then Restarting(s, c, "", a.err)
    else if a.err == Waiting then Restarting(s, a.cluster, "", Waiting)
    else if a.err != Nil then Restarting(Failing(s), a.cluster, "", a.err)
    else if !scrape || !Matches(c, Filter.ControlPlane, m) then Restarting(s, a.cluster, "", Nil)
    else
      match StageFromOutput(c.nodes[m], w)
      case Bad(err) => Restarting(s, a.cluster, "", err)
      case Good(stage) => Restarting(s, a.cluster, stage, Nil)
  }

  /** One follower: its stage must be the leader's, when it is scraped. */
  function FollowerRestarted(s: Status, phase: KeyPhase, c: Cluster, joinServer: string, m: string, scrape: bool,
                             leaderStage: string, w: World): (r: Stage)
    requires m in c.secrets
    ensures r.err == Nil ==> r.status == s && r.cluster == c
  {
    var one := ServiceRestarted(s, phase, c, joinServer, m, scrape, leaderStage, w);
    if one.err != Nil then Stage(one.status, one.cluster, one.err)
    else if scrape && one.stage != leaderStage then Stage(Failing(one.status), one.cluster, Other)
    else Stage(one.status, one.cluster, Nil)
  }

  ghost function FollowersRestarted(s: Status, phase: KeyPhase, c: Cluster, joinServer: string, names: seq<string>,
                                    scrape: bool, leaderStage: string, w: World): (r: Stage)
    requires Listed(c, names)
    ensures r.err == Nil ==> r.status == s && r.cluster == c
    decreases |names|
  {
    if names == [] then Stage(s, c, Nil) else
    var one := FollowerRestarted(s, phase, c, joinServer, names[0], scrape, leaderStage, w);
    if one.err != Nil then one
    else FollowersRestarted(s, phase, c, joinServer, names[1..], scrape, leaderStage, w)
  }

  function OtherEtcd(leader: string): Filter {
    And(And(Etcd, Not(Filter.ControlPlane)), And(Not(Named(leader)), Not(Filter.InitNode)))
  }

  function OtherControlPlane(leader: string): Filter {
    And(And(Filter.ControlPlane, Not(Filter.InitNode)), Not(Named(leader)))
  }

  lemma OthersListed(c: Cluster, leader: string)
    ensures Listed(c, Collected(c, OtherEtcd(leader)))
    ensures Listed(c, Collected(c, OtherControlPlane(leader)))
  {
    assert RoleFilter(Etcd) && RoleFilter(Filter.ControlPlane);
    assert RoleFilter(And(Etcd, Not(Filter.ControlPlane)));
    assert RoleFilter(And(Filter.ControlPlane, Not(Filter.InitNode)));
    RolesListed(c, OtherEtcd(leader));
    RolesListed(c, OtherControlPlane(leader));
  }

  /** From the leader on: the leader's stage is what every other control-plane machine must report. */
  ghost function LeaderRestarted(cp: Object, s: Status, c: Cluster, joinServer: string, leader: string, w: World): Stage
    requires leader in c.secrets
  {
    var phase := cp.status.keyPhase;
    var first := ServiceRestarted(s, phase, c, joinServer, leader, true, "", w);
    if first.err != Nil then Stage(first.status, first.cluster, first.err) else
    OthersListed(c, cp.status.keyLeader);
    FollowersRestarted(first.status, phase, c, joinServer, Collected(c, OtherControlPlane(cp.status.keyLeader)), true,
                       first.stage, w)
  }

  /** encryptionKeyRotationRestartNodes. */
  ghost function NodesRestarted(cp: Object, s: Status, c: Cluster, joinServer: string, leader: string, initNode: string,
                                w: World): Stage
    requires leader in c.secrets && initNode in c.secrets
  {
    if Matches(c, Filter.InitNode, leader) then LeaderRestarted(cp, s, c, joinServer, leader, w) else
    var phase := cp.status.keyPhase;
    var init := FollowerRestarted(s, phase, c, joinServer, initNode, false, "", w);
    if init.err != Nil then init else
    OthersListed(c, cp.status.keyLeader);
    var others := Collected(c, OtherEtcd(cp.status.keyLeader));
    var etcds := FollowersRestarted(s, phase, c, joinServer, others, false, "", w);
    if etcds.err != Nil then etcds else LeaderRestarted(cp, s, c, joinServer, leader, w)
  }

  // ---------------------------------------------------------------- the phases

  function NextPhase(phase: KeyPhase): KeyPhase {
    match phase
    case Prepare => PostPrepareRestart
    case PostPrepareRestart => Rotate
    case Rotate => PostRotateRestart
    case PostRotateRestart => Reencrypt
    case Reencrypt => PostReencryptRestart
    case PostReencryptRestart => KeysDone
    case p => p
  }

  function Advanced(stage: Stage, keys: Option<int>, next: KeyPhase): Stage {
    if stage.err != Nil then stage else
    var setting := SetState(stage.status, keys, next);
    Stage(setting.status, stage.cluster, setting.err)
  }

  ghost function InPhase(cp: Object, s: Status, c: Cluster, joinServer: string, leader: string, initNode: string,
                         w: World): Stage
    requires leader in c.secrets && initNode in c.secrets
  {
    var phase, keys := cp.status.keyPhase, cp.spec.keys;
    match phase
    case Prepare =>
      if !w.pause then Stage(s, c, Waiting)
      else Advanced(Commanded(s, phase, c, joinServer, leader, w), keys, PostPrepareRestart)
    case PostPrepareRestart =>
      Advanced(NodesRestarted(cp, s, c, joinServer, leader, initNode, w), keys, Rotate)
    case Rotate => Advanced(Commanded(s, phase, c, joinServer, leader, w), keys, PostRotateRestart)
    case PostRotateRestart =>
      Advanced(NodesRestarted(cp, s, c, joinServer, leader, initNode, w), keys, Reencrypt)
    case Reencrypt => Advanced(Commanded(s, phase, c, joinServer, leader, w), keys, PostReencryptRestart)
    case PostReencryptRestart =>
      var restarted := NodesRestarted(cp, s, c, joinServer, leader, initNode, w);
      if restarted.err != Nil then restarted
      else if !w.unpause then restarted.(err := Waiting)
      else Advanced(restarted.(status := restarted.status.(keyLeader := "")), keys, KeysDone)
    case _ => Stage(s, c, Other)
  }

  /** Once there is an init node with a join URL. A pass that misses a record crashes, and nothing is persisted; that is
      what another error comes to. */
  ghost function Proceeding(cp: Object, s: Status, c: Cluster, joinServer: string, initNode: string, w: World): Stage
    requires cp.spec.keys.Some? && initNode in c.secrets
  {
    if MissesRecord(cp) then Stage(s, c, Other)
    else if ShouldRestart(cp) then
      var setting := SetState(s, cp.spec.keys, Prepare);
      Stage(setting.status, c, setting.err)
    else
      var leader := Leader(s, c, initNode);
      if leader.None? then Stage(s, c, Other)
      else if s.keyLeader != leader.value then Stage(s.(keyLeader := leader.value), c, Waiting)
      else
        LeaderHasSecret(s, c, initNode);
        InPhase(cp, s, c, joinServer, leader.value, initNode, w)
  }

  lemma LeaderHasSecret(s: Status, c: Cluster, initNode: string)
    requires initNode in c.secrets
    ensures Leader(s, c, initNode).Some? ==> Leader(s, c, initNode).value in c.secrets
  {
    assert RoleFilter(Filter.ControlPlane);
    if Leader(s, c, initNode).Some? && Leader(s, c, initNode).value != initNode {
      var m := Leader(s, c, initNode).value;
      assert Matches(c, SUITABLE, m) by {
        if m != s.keyLeader { assert m in Collected(c, SUITABLE); }
      }
      RoleNeedsSecret(c, SUITABLE, m);
    }
  }

  /** The init node that was found has a secret. */
  lemma FoundHasSecret(c: Cluster, fixed: string)
    ensures var f := FoundInitNode(c, fixed);
      f.err == Nil ==> f.node.Some? && f.node.value in f.cluster.secrets && f.found
  {
    hide ClearedMarks;
    if fixed != "" {
      var entries := Collected(c, LabelledId(fixed));
      if entries != [] { assert entries[0] in entries; }
    } else {
      var entries := Collected(c, Filter.InitNode);
      if entries != [] { assert entries[0] in entries; }
    }
  }

  /** rotateEncryptionKeys. A release for which rotation is not supported marks the rotation as failed. */
  ghost function KeyStage(cp: Object, s: Status, c: Cluster, w: World): Stage
  {
    if cp.spec.keys.None? then
      var r := ResetState(s);
      Stage(r.status, c, r.err)
    else
      match w.keysSupported
      case Bad(_) => Stage(s, c, Other)
      case Good(supported) =>
        if !supported then
          var setting := SetState(s, cp.spec.keys, KeysFailed);
          Stage(setting.status, c, setting.err)
        else if !CanRotate(cp) then Stage(s, c, Nil)
        else if !s.initialized then Stage(s, c, Nil)
        else
          var f := FoundInitNode(c, cp.fixedInitNode);
          if f.err != Nil then Stage(s, f.cluster, f.err)
          else if f.joinURL == "" then Stage(s, f.cluster, Nil)
          else
            FoundHasSecret(c, cp.fixedInitNode);
            Proceeding(cp, s, f.cluster, f.joinURL, f.node.value, w)
  }

  // ---------------------------------------------------------------- as it runs

  method RunCommand(store: PlanStore, status: Status, phase: KeyPhase, joinServer: string, leader: string, w: World)
    returns (s: Status, err: Err)
    requires leader in store.cluster.secrets
    modifies store
    ensures Stage(s, store.cluster, err) ==
            Commanded(status, phase, old(store.cluster), joinServer, leader, w)
  {
    hide Assigned, CommandVerdict;
    s := status;
    ghost var c := store.cluster;
    var job := CommandJob(phase, joinServer);
    AssignedNil(c, leader, job, w);
    var secret := store.cluster.secrets[leader];
    var fails := w.render(KeyCommand(phase), leader, secret.labels, secret.annotations, joinServer).RenderFails?;
    err := Assign(store, leader, job, w);
    if fails {
      assert store.cluster == c by { RenderFailsKeeps(c, leader, job, w); }
      return;
    }
    if err == Waiting {
      return;
    }
    if err != Nil {
      s := Failing(s);
      return;
    }
    var v := CommandVerdict(s, phase, store.cluster.nodes[leader], w);
    return v.status, v.err;
  }

  method RestartService(store: PlanStore, status: Status, phase: KeyPhase, joinServer: string, m: string, scrape: bool,
                        leaderStage: string, w: World)
    returns (stage: string, s: Status, err: Err)
    requires m in store.cluster.secrets
    modifies store
    ensures Restarting(s, store.cluster, stage, err) ==
            ServiceRestarted(status, phase, old(store.cluster), joinServer, m, scrape, leaderStage, w)
  {
    hide Assigned;
    stage, s := "", status;
    ghost var c := store.cluster;
    var job := RestartJob(phase, joinServer, leaderStage);
    AssignedNil(c, m, job, w);
    var secret := store.cluster.secrets[m];
    var restart := KeyRestart(phase, leaderStage);
    var fails := w.render(restart, m, secret.labels, secret.annotations, joinServer).RenderFails?;
    err := Assign(store, m, job, w);
    if fails {
      assert store.cluster == c by { RenderFailsKeeps(c, m, job, w); }
      return;
    }
    if err == Waiting {
      return;
    }
    if err != Nil {
      s := Failing(s);
      return;
    }
    if !scrape || !Matches(store.cluster, Filter.ControlPlane, m) {
      return;
    }
    var scraped := StageFromOutput(store.cluster.nodes[m], w);
    match scraped {
      case Bad(e) => err := e;
      case Good(value) => stage := value;
    }
  }

  method RestartFollowers(store: PlanStore, status: Status, phase: KeyPhase, joinServer: string, names: seq<string>,
                          scrape: bool, leaderStage: string, w: World)
    returns (s: Status, err: Err)
    requires Listed(store.cluster, names)
    modifies store
    ensures Stage(s, store.cluster, err) ==
            FollowersRestarted(status, phase, old(store.cluster), joinServer, names, scrape, leaderStage, w)
  {
    hide ServiceRestarted;
    s := status;
    ghost var c := store.cluster;
    assert names[0..] == names;
    for i := 0 to |names|
      invariant store.cluster == c && s == status
      invariant FollowersRestarted(status, phase, c, joinServer, names, scrape, leaderStage, w) ==
                FollowersRestarted(status, phase, c, joinServer, names[i..], scrape, leaderStage, w)
    {
      assert names[i..][0] == names[i] && names[i..][1..] == names[i + 1..];
      assert names[i] in names;
      var stage;
      stage, s, err := RestartService(store, s, phase, joinServer, names[i], scrape, leaderStage, w);
      if err != Nil {
        return;
      }
      if scrape && stage != leaderStage {
        return Failing(s), Other;
      }
    }
    assert names[|names|..] == [];
    return s, Nil;
  }

  method RestartLeader(store: PlanStore, cp: Object, status: Status, joinServer: string, leader: string, w: World)
    returns (s: Status, err: Err)
    requires leader in store.cluster.secrets
    modifies store
    ensures Stage(s, store.cluster, err) == LeaderRestarted(cp, status, old(store.cluster), joinServer, leader, w)
  {
    hide Assigned, FollowersRestarted, Matches;
    ghost var c := store.cluster;
    AssignedNil(c, leader, RestartJob(cp.status.keyPhase, joinServer, ""), w);
    var leaderStage;
    leaderStage, s, err := RestartService(store, status, cp.status.keyPhase, joinServer, leader, true, "", w);
    if err != Nil {
      return;
    }
    OthersListed(store.cluster, cp.status.keyLeader);
    var others := Collect(store.cluster, OtherControlPlane(cp.status.keyLeader));
    s, err := RestartFollowers(store, s, cp.status.keyPhase, joinServer, others, true, leaderStage, w);
  }

  method RestartNodes(store: PlanStore, cp: Object, status: Status, joinServer: string, leader: string,
                      initNode: string, w: World)
    returns (s: Status, err: Err)
    requires leader in store.cluster.secrets && initNode in store.cluster.secrets
    modifies store
    ensures Stage(s, store.cluster, err) ==
            NodesRestarted(cp, status, old(store.cluster), joinServer, leader, initNode, w)
  {
    hide ServiceRestarted, LeaderRestarted, FollowersRestarted;
    s := status;
    if !Matches(store.cluster, Filter.InitNode, leader) {
      var stage;
      ghost var c := store.cluster;
      stage, s, err := RestartService(store, s, cp.status.keyPhase, joinServer, initNode, false, "", w);
      if err != Nil {
        return;
      }
      assert store.cluster == c;
      OthersListed(store.cluster, cp.status.keyLeader);
      var etcds := Collect(store.cluster, OtherEtcd(cp.status.keyLeader));
      s, err := RestartFollowers(store, s, cp.status.keyPhase, joinServer, etcds, false, "", w);
      if err != Nil {
        return;
      }
    }
    s, err := RestartLeader(store, cp, s, joinServer, leader, w);
  }

  /** The switch over the phases. */
  method RunPhase(store: PlanStore, cp: Object, status: Status, joinServer: string, leader: string,
                  initNode: string, w: World)
    returns (s: Status, err: Err)
    requires leader in store.cluster.secrets && initNode in store.cluster.secrets
    modifies store
    ensures Stage(s, store.cluster, err) ==
            InPhase(cp, status, old(store.cluster), joinServer, leader, initNode, w)
  {
    hide Commanded, NodesRestarted, Matches;
    s := status;
    var phase := cp.status.keyPhase;
    match phase {
      case Prepare =>
        if !w.pause {
          return s, Waiting;
        }
        s, err := RunCommand(store, s, phase, joinServer, leader, w);
      case PostPrepareRestart =>
        s, err := RestartNodes(store, cp, s, joinServer, leader, initNode, w);
      case Rotate =>
        s, err := RunCommand(store, s, phase, joinServer, leader, w);
      case PostRotateRestart =>
        s, err := RestartNodes(store, cp, s, joinServer, leader, initNode, w);
      case Reencrypt =>
        s, err := RunCommand(store, s, phase, joinServer, leader, w);
      case PostReencryptRestart =>
        s, err := RestartNodes(store, cp, s, joinServer, leader, initNode, w);
        if err != Nil {
          return;
        }
        if !w.unpause {
          return s, Waiting;
        }
        s := s.(keyLeader := "");
      case _ =>
        return s, Other;
    }
    if err != Nil {
      return;
    }
    var r := SetState(s, cp.spec.keys, NextPhase(phase));
    return r.status, r.err;
  }

  method RotateEncryptionKeys(store: PlanStore, cp: Object, status: Status, w: World)
    returns (s: Status, err: Err)
    modifies store
    ensures Stage(s, store.cluster, err) == KeyStage(cp, status, old(store.cluster), w)
  {
    hide FoundInitNode, InPhase, Leader, Matches;
    s := status;
    if cp.spec.keys.None? {
      var r := ResetState(s);
      return r.status, r.err;
    }
    if w.keysSupported.Bad? {
      return s, Other;
    }
    if !w.keysSupported.value {
      var r := SetState(s, cp.spec.keys, KeysFailed);
      return r.status, r.err;
    }
    if !CanRotate(cp) {
      return s, Nil;
    }
    if !s.initialized {
      return s, Nil;
    }
    var found, joinServer, initNode;
    FoundHasSecret(store.cluster, cp.fixedInitNode);
    found, joinServer, initNode, err := FindInitNode(store, cp.fixedInitNode);
    if err != Nil {
      return;
    }
    if !found || joinServer == "" {
      return s, Nil;
    }
    if MissesRecord(cp) {
      return s, Other;
    }
    if ShouldRestart(cp) {
      var r := SetState(s, cp.spec.keys, Prepare);
      return r.status, r.err;
    }
    LeaderHasSecret(s, store.cluster, initNode.value);
    var leader := FindLeader(s, store.cluster, initNode.value);
    if leader.None? {
      return s, Other;
    }
    if s.keyLeader != leader.value {
      s := s.(keyLeader := leader.value);
      return s, Waiting;
    }
    s, err := RunPhase(store, cp, s, joinServer, leader.value, initNode.value, w);
  }
}
