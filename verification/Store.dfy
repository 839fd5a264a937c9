/** The plan store: reading a machine-plan secret as a node, writing a plan into it, and checking on it. */
module Store {
  import opened Model

  function PlanHash(data: Blob<NodePlan>): Checksum {
    Sum(data)
  }

  /** What SecretToNode returns: an error, no node because there is no plan, or the node. */
  datatype Reading = Unreadable | NoNode | Readable(node: Node)

  /** Whether the recorded failure count belongs to the plan that the secret holds now. */
  predicate CountsForPlan(s: Secret) {
    s.failureCount != Absent && s.failedChecksum == PlanHash(s.plan)
  }

  predicate AllHealthy(probes: map<string, bool>) {
    forall name :: name in probes ==> probes[name]
  }

  /** Reads a secret. The parts are parsed in the order in which the store parses them. */
  function SecretToNode(s: Secret): Reading {
    if CountsForPlan(s) && s.failureCount.Malformed? then Unreadable else
    var failing := CountsForPlan(s) && s.failureCount.value > 0;
    if failing && s.failureThreshold.Malformed? then Unreadable else
    var failed := failing && !(s.failureThreshold.Encoded? &&
                               (s.failureCount.value < s.failureThreshold.value || s.failureThreshold.value == -1));
    if s.probeStatuses.Malformed? then Unreadable else
    var healthy := s.probeStatuses.Encoded? ==> AllHealthy(s.probeStatuses.value);
    match s.plan
    case Malformed(_) => Unreadable
    case Absent => NoNode
    case Encoded(plan) =>
      if s.appliedPlan.Malformed? || s.output.Malformed? || s.periodicOutput.Malformed? then Unreadable else
      Readable(Node(
        plan,
        if s.appliedPlan.Encoded? then Some(s.appliedPlan.value) else None,
        s.annotations.joinedTo,
        if s.output.Encoded? then s.output.value else map[],
        if s.periodicOutput.Encoded? then s.periodicOutput.value else map[],
        failed,
        s.plan == s.appliedPlan,
        healthy,
        s.annotations.probesPassed != ""))
  }

  function NodeFrom(r: Reading): Option<Node> {
    if r.Readable? then Some(r.node) else None
  }

  /** The snapshot agrees with the secrets: every secret reads, and its node is the one that the snapshot holds. */
  ghost predicate Loaded(c: Cluster) {
    && c.secrets.Keys <= c.machines.Keys
    && c.nodes.Keys <= c.secrets.Keys
    && forall m :: m in c.secrets ==>
         !SecretToNode(c.secrets[m]).Unreadable? && NodeOf(c, m) == NodeFrom(SecretToNode(c.secrets[m]))
  }

  /** A secret cannot be read exactly when some part of it does not decode that has to be looked at: the failure count
      and threshold of the plan that it holds, the probe results, the plan, and, once there is a plan, the applied one
      and the two outputs. */
  lemma UnreadableExactly(s: Secret)
    ensures SecretToNode(s).Unreadable? <==>
      || s.plan.Malformed? || s.probeStatuses.Malformed?
      || (s.failureCount.Malformed? && s.failedChecksum == Sum(s.plan))
      || (s.failureThreshold.Malformed? && s.failureCount.Encoded? && s.failureCount.value > 0 &&
          s.failedChecksum == Sum(s.plan))
      || (s.plan.Encoded? && (s.appliedPlan.Malformed? || s.output.Malformed? || s.periodicOutput.Malformed?))
    ensures SecretToNode(s).NoNode? ==> s.plan == Absent
  {
  }

  /** What is read is what the secret says. */
  lemma ReadsWhatIsThere(s: Secret)
    ensures var r := SecretToNode(s);
      r.Readable? ==>
        && s.plan == Encoded(r.node.plan) && r.node.joinedTo == s.annotations.joinedTo
        && (if r.node.appliedPlan.Some? then s.appliedPlan == Encoded(r.node.appliedPlan.value)
            else s.appliedPlan == Absent)
        && (s.output == Encoded(r.node.output) || (s.output == Absent && r.node.output == map[]))
        && (s.periodicOutput == Encoded(r.node.periodicOutput) ||
            (s.periodicOutput == Absent && r.node.periodicOutput == map[]))
        && (r.node.inSync <==> s.appliedPlan == s.plan) && (r.node.probesUsable <==> s.annotations.probesPassed != "")
        && (r.node.healthy <==> s.probeStatuses.Encoded? ==>
              forall name :: name in s.probeStatuses.value ==> s.probeStatuses.value[name])
  {
  }

  // ---------------------------------------------------------------- writing a plan

  function Limit(n: int): Blob<int> {
    if n > 0 || n == -1 then Encoded(n) else Absent
  }

  /** The joined-to annotation after a plan is written. The test for an init node looks at the annotations, where
      the init-node mark is never put: the mark is a label. */
  function JoinedToAfter(a: Annotations, joinedTo: string): string {
    if a.initNode == "true" then ""
    else if joinedTo == "" then a.joinedTo
    else if joinedTo == "-" then ""
    else joinedTo
  }

  function WithPlan(s: Secret, plan: NodePlan, joinedTo: string, maxFailures: int, failureThreshold: int): Secret {
    s.(annotations := s.annotations.(joinedTo := JoinedToAfter(s.annotations, joinedTo), probesPassed := ""),
       probeStatuses := Absent,
       plan := Encoded(plan),
       maxFailures := Limit(maxFailures),
       failureThreshold := Limit(failureThreshold))
  }

  predicate BadLimits(maxFailures: int, failureThreshold: int) {
    maxFailures < failureThreshold && failureThreshold != -1 && maxFailures != -1
  }

  /** The result of a store operation: the cluster, the error, and the entry's node afterwards. */
  datatype Write = Write(cluster: Cluster, err: Err, node: Option<Node>)

  /** The entry's node after its secret became s, unless s cannot be read. */
  function Reload(c: Cluster, m: string, s: Secret, before: Option<Node>): Write {
    var r := SecretToNode(s);
    if r.Unreadable? then Write(Put(c, m, s), Other, before) else Write(Put(c, m, s), Nil, NodeFrom(r))
  }

  function PlanUpdate(c: Cluster, m: string, node: Option<Node>, plan: NodePlan, joinedTo: string,
                      maxFailures: int, failureThreshold: int): Write {
    if BadLimits(maxFailures, failureThreshold) || m !in c.secrets then Write(c, Other, node) else
    Reload(c, m, WithPlan(c.secrets[m], plan, joinedTo, maxFailures, failureThreshold), node)
  }

  /** Assigns the plan unless the entry holds it, and otherwise says whether it is applied and healthy.
      The last two arguments go to UpdatePlan by position, as (maxFailures, failureThreshold), whatever their names. */
  function PlanAssignment(c: Cluster, m: string, node: Option<Node>, plan: NodePlan, joinedTo: string,
                              failureThreshold: int, maxRetries: int): Write {
    if node.None? || node.value.plan != plan then
      var w := PlanUpdate(c, m, node, plan, joinedTo, failureThreshold, maxRetries);
      if w.err != Nil then w else w.(err := Waiting)
    else if node.value.failed then Write(c, Other, node)
    else if !node.value.inSync then Write(c, Waiting, node)
    else if !node.value.healthy then Write(c, Waiting, node)
    else Write(c, Nil, node)
  }

  /** The planner's and the API server's mutable state during a pass. */
  class PlanStore {
    var cluster: Cluster

    constructor (cluster: Cluster)
      ensures this.cluster == cluster
    {
      this.cluster := cluster;
    }

    method UpdatePlan(m: string, node: Option<Node>, plan: NodePlan, joinedTo: string,
                      maxFailures: int, failureThreshold: int) returns (err: Err, after: Option<Node>)
      modifies this
      ensures Write(cluster, err, after) ==
              PlanUpdate(old(cluster), m, node, plan, joinedTo, maxFailures, failureThreshold)
    {
      if maxFailures < failureThreshold && failureThreshold != -1 && maxFailures != -1 {
        return Other, node;
      }
      if m !in cluster.secrets {
        return Other, node;
      }
      var secret := cluster.secrets[m];
      var annotations := secret.annotations;
      if joinedTo != "" {
        if joinedTo == "-" || annotations.initNode == "true" {
          annotations := annotations.(joinedTo := "");
        } else {
          annotations := annotations.(joinedTo := joinedTo);
        }
      }
      if annotations.initNode == "true" {
        annotations := annotations.(joinedTo := "");
      }
      annotations := annotations.(probesPassed := "");
      secret := secret.(annotations := annotations, probeStatuses := Absent, plan := Encoded(plan));
      if maxFailures > 0 || maxFailures == -1 {
        secret := secret.(maxFailures := Encoded(maxFailures));
      } else {
        secret := secret.(maxFailures := Absent);
      }
      if failureThreshold > 0 || failureThreshold == -1 {
        secret := secret.(failureThreshold := Encoded(failureThreshold));
      } else {
        secret := secret.(failureThreshold := Absent);
      }
      cluster := cluster.(secrets := cluster.secrets[m := secret]);
      var reading := SecretToNode(secret);
      if reading.Unreadable? {
        return Other, node;
      }
      return Nil, NodeFrom(reading);
    }

    /** updatePlanSecretLabelsAndAnnotations, for the labels and annotations given. */
    method UpdateMetadata(m: string, node: Option<Node>, labels: Labels, annotations: Annotations)
      returns (err: Err, after: Option<Node>)
      modifies this
      ensures m in old(cluster).secrets ==>
        Write(cluster, err, after) ==
        Reload(old(cluster), m, old(cluster).secrets[m].(labels := labels, annotations := annotations), node)
      ensures m !in old(cluster).secrets ==> Write(cluster, err, after) == Write(old(cluster), Other, node)
    {
      if m !in cluster.secrets {
        return Other, node;
      }
      var secret := cluster.secrets[m].(labels := labels, annotations := annotations);
      cluster := Put(cluster, m, secret);
      var reading := SecretToNode(secret);
      if reading.Unreadable? {
        return Other, node;
      }
      return Nil, NodeFrom(reading);
    }

    method AssignAndCheckPlan(m: string, node: Option<Node>, plan: NodePlan, joinedTo: string,
                              failureThreshold: int, maxRetries: int) returns (err: Err, after: Option<Node>)
      modifies this
      ensures Write(cluster, err, after) ==
              PlanAssignment(old(cluster), m, node, plan, joinedTo, failureThreshold, maxRetries)
    {
      if node.None? || node.value.plan != plan {
        err, after := UpdatePlan(m, node, plan, joinedTo, failureThreshold, maxRetries);
        if err != Nil {
          return;
        }
        return Waiting, after;
      }
      if node.value.failed {
        return Other, node;
      }
      if !node.value.inSync {
        return Waiting, node;
      }
      if !node.value.healthy {
        return Waiting, node;
      }
      return Nil, node;
    }
  }

  // ---------------------------------------------------------------- what one write means

  /** After a plan is written, the node is in sync only if that very plan is the last applied one, is failed only if
      the agent's last failure was of that plan and counts as one, and its probes are never usable. */
  lemma FreshAssignment(s: Secret, plan: NodePlan, joinedTo: string, maxFailures: int, failureThreshold: int)
    ensures var s' := WithPlan(s, plan, joinedTo, maxFailures, failureThreshold);
      var r := SecretToNode(s');
      r.Readable? ==>
        && r.node.plan == plan
        && (r.node.inSync <==> s.appliedPlan == Encoded(plan))
        && (r.node.failed <==>
              && s.failedChecksum == PlanHash(Encoded(plan))
              && s.failureCount.Encoded? && s.failureCount.value > 0
              && failureThreshold != -1
              && (failureThreshold <= 0 || s.failureCount.value >= failureThreshold))
        && !r.node.probesUsable
        && r.node.healthy
  {
  }

  /** Limits are refused exactly when the plan would be given up before it could count as failed; so whatever a write
      leaves, the number of attempts reaches the number of failures that count. */
  lemma LimitsAreReachable(c: Cluster, m: string, node: Option<Node>, plan: NodePlan, joinedTo: string, a: int, b: int)
    requires m in c.secrets
    ensures var w := PlanUpdate(c, m, node, plan, joinedTo, a, b);
      var s := w.cluster.secrets[m];
      if a != -1 && b != -1 && a < b then w == Write(c, Other, node)
      else
        && s.plan == Encoded(plan)
        && (s.failureThreshold.Encoded? && s.failureThreshold.value != -1 ==>
              s.maxFailures.Encoded? && (s.maxFailures.value == -1 || s.maxFailures.value >= s.failureThreshold.value))
        && (s.maxFailures == Encoded(a) <==> a > 0 || a == -1)
        && (s.failureThreshold == Encoded(b) <==> b > 0 || b == -1)
  {
    hide SecretToNode;
  }

  /** A joined server stays recorded, or is recorded now, exactly when it is not the sign for none and the annotations,
      rather than the labels, carry no init-node mark; so an init node, which is marked by a label, can record one. */
  lemma JoinedServerRecorded(s: Secret, plan: NodePlan, joinedTo: string, a: int, b: int)
    ensures var recorded := WithPlan(s, plan, joinedTo, a, b).annotations.joinedTo;
      && (recorded != "" <==> s.annotations.initNode != "true" && joinedTo != "-" &&
                              (joinedTo != "" || s.annotations.joinedTo != ""))
      && (recorded != "" ==> recorded == if joinedTo != "" then joinedTo else s.annotations.joinedTo)
  {
  }

  /** A plan that is neither the last applied nor the last failed one starts from a clean slate. */
  lemma NewPlanStartsClean(c: Cluster, m: string, node: Option<Node>, plan: NodePlan, joinedTo: string, a: int, b: int)
    requires m in c.secrets
    requires c.secrets[m].appliedPlan != Encoded(plan) && c.secrets[m].failedChecksum != PlanHash(Encoded(plan))
    requires node.None? || node.value.plan != plan
    ensures var w := PlanAssignment(c, m, node, plan, joinedTo, a, b);
      w.err != Nil && (w.err == Waiting ==>
        && w.node.Some? && w.node.value.plan == plan
        && !w.node.value.inSync && !w.node.value.failed && !w.node.value.probesUsable)
  {
  }

  /** The snapshot restart passes (1, -1) as threshold and retries; the secret then allows one attempt and no count of
      failures ever marks the plan as failed, so the restart can wait on a plan that will not be tried again. */
  lemma SwappedLimitsNeverFail(c: Cluster, m: string, node: Option<Node>, plan: NodePlan, joinedTo: string,
                               sum: Checksum, count: Blob<int>)
    requires m in c.secrets && (node.None? || node.value.plan != plan)
    ensures var s := PlanAssignment(c, m, node, plan, joinedTo, 1, -1).cluster.secrets[m];
      && s.maxFailures == Encoded(1) && s.failureThreshold == Encoded(-1)
      && var r := SecretToNode(s.(failedChecksum := sum, failureCount := count));
         r.Readable? ==> !r.node.failed
  {
  }
}
