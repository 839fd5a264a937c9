/** The values the planner works on: node plans, machine-plan secrets, machines and the loaded cluster plan. */
module Model {

  datatype Option<+T> = None | Some(value: T)

  /** A value, or the error that came instead. */
  datatype Try<+T> = Good(value: T) | Bad(err: Err)

  /** How a step ended. Waiting, Ignore and Skip are the planner's three special errors; Other is any other error. */
  datatype Err = Nil | Waiting | Ignore | Skip | Other

  // ---------------------------------------------------------------- node plans

  datatype File = File(path: string, content: string, permissions: string, dynamic: bool, minor: bool)

  datatype Instruction = Instruction(
    name: string, image: string, env: seq<string>, args: seq<string>, command: string, saveOutput: bool)

  datatype PeriodicInstruction = PeriodicInstruction(
    name: string, image: string, env: seq<string>, args: seq<string>, command: string, periodSeconds: int)

  datatype Probe = Probe(url: string, caCert: string, clientCert: string, clientKey: string, settings: string)

  datatype NodePlan = NodePlan(
    files: seq<File>,
    instructions: seq<Instruction>,
    periodic: seq<PeriodicInstruction>,
    error: string,
    probes: map<string, Probe>)

  // ---------------------------------------------------------------- secrets

  /** A data entry of a secret: missing or empty, the encoding of a value, or bytes that do not decode. */
  datatype Blob<+T> = Absent | Encoded(value: T) | Malformed(raw: string)

  /** A recorded checksum: the empty string, or the hash of a plan entry. Two entries hash alike only when equal. */
  datatype Checksum = NoSum | Sum(of: Blob<NodePlan>)

  datatype DrainOptions = DrainOptions(
    enabled: bool, preDrainHooks: seq<string>, postDrainHooks: seq<string>, settings: string)

  /** The value of a drain annotation: empty, the encoding of drain options, or any other text. */
  datatype Mark = Blank | Options(options: DrainOptions) | Junk(text: string)

  datatype Labels = Labels(
    etcd: bool, controlPlane: bool, worker: bool, windows: bool, initNode: string, machineId: string)

  datatype Annotations = Annotations(
    joinURL: string,
    joinedTo: string,
    initNode: string,
    probesPassed: string,
    drain: Mark,
    drainDone: Mark,
    preDrain: Mark,
    postDrain: Mark,
    unCordon: Mark,
    drainError: Option<string>,
    hooks: map<string, Mark>)

  datatype PeriodicOutput = PeriodicOutput(stdout: string, exitCode: int)

  datatype Secret = Secret(
    labels: Labels,
    annotations: Annotations,
    plan: Blob<NodePlan>,
    appliedPlan: Blob<NodePlan>,
    appliedChecksum: Checksum,
    failedChecksum: Checksum,
    failureCount: Blob<int>,
    maxFailures: Blob<int>,
    failureThreshold: Blob<int>,
    probeStatuses: Blob<map<string, bool>>,
    output: Blob<map<string, string>>,
    periodicOutput: Blob<map<string, PeriodicOutput>>)

  /** What the planner sees of a secret that holds a plan. */
  datatype Node = Node(
    plan: NodePlan,
    appliedPlan: Option<NodePlan>,
    joinedTo: string,
    output: map<string, string>,
    periodicOutput: map<string, PeriodicOutput>,
    failed: bool,
    inSync: bool,
    healthy: bool,
    probesUsable: bool)

  // ---------------------------------------------------------------- machines and the cluster plan

  /** The parts of a machine's condition summary that steer the planner; message says whether it has any message. */
  datatype Summary = Summary(error: bool, transitioning: bool, message: bool)

  datatype Machine = Machine(
    uid: string,
    machineId: string,
    deleting: bool,
    failed: bool,
    infrastructureReady: bool,
    nodeRef: Option<string>,
    ready: bool,
    reconciled: bool,
    kubeletUpToDate: bool,
    summary: Summary)

  /** The loaded cluster plan together with the secrets as they are now. A machine without a secret has no metadata.
      nodes is the snapshot taken when the pass began: writing a plan changes the secret but not the snapshot. */
  datatype Cluster = Cluster(machines: map<string, Machine>, nodes: map<string, Node>, secrets: map<string, Secret>)

  function NodeOf(c: Cluster, m: string): Option<Node> {
    if m in c.nodes then Some(c.nodes[m]) else None
  }

  /** c with the secret of m replaced. */
  function Put(c: Cluster, m: string, s: Secret): Cluster {
    c.(secrets := c.secrets[m := s])
  }

  /** Both clusters hold the same plan for every machine. */
  ghost predicate SamePlans(a: Cluster, b: Cluster) {
    && a.secrets.Keys == b.secrets.Keys
    && forall m :: m in a.secrets ==> a.secrets[m].plan == b.secrets[m].plan
  }

  /** b differs from a in the secrets of the given machines at most. */
  ghost predicate OnlyTouches(a: Cluster, b: Cluster, who: set<string>) {
    && a.machines == b.machines
    && a.nodes == b.nodes
    && a.secrets.Keys == b.secrets.Keys
    && forall m :: m in a.secrets && m !in who ==> a.secrets[m] == b.secrets[m]
  }
}
