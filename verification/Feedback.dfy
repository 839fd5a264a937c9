/** Runs of one machine-plan secret under the planner, the system agent and the plan-secret controller. */
module Feedback {
  import opened Model
  import opened Store
  import PlanSecret

  /** A secret together with the plan entries that the agent has reported running so far. */
  datatype State = State(secret: Secret, ran: set<Blob<NodePlan>>)

  /** A secret before any plan: nothing applied, no report. */
  ghost predicate Initial(d: State) {
    d.secret.appliedPlan == Absent && d.secret.appliedChecksum == NoSum && d.ran == {}
  }

  ghost predicate PlannerWrites(d: State, d': State) {
    exists plan, joinedTo, a, b ::
      d' == d.(secret := WithPlan(d.secret, plan, joinedTo, a, b))
  }

  ghost predicate MetadataChanges(d: State, d': State) {
    d' == d.(secret := d.secret.(labels := d'.secret.labels, annotations := d'.secret.annotations))
  }

  /** The agent may report success or failure of any plan it ran, be it the current one or an older one, and may write
      its counters, probe results and outputs at will. */
  ghost predicate AgentReports(d: State, d': State) {
    var s' := d'.secret;
    && s' == d.secret.(appliedChecksum := s'.appliedChecksum, failedChecksum := s'.failedChecksum,
                       failureCount := s'.failureCount, probeStatuses := s'.probeStatuses,
                       output := s'.output, periodicOutput := s'.periodicOutput)
    && d.ran <= d'.ran
    && (s'.appliedChecksum == d.secret.appliedChecksum ||
        (s'.appliedChecksum.Sum? && s'.appliedChecksum.of in d'.ran))
  }

  ghost predicate ControllerRuns(d: State, d': State) {
    exists now :: d' == d.(secret := PlanSecret.Handled(d.secret, now).secret)
  }

  ghost predicate Next(d: State, d': State) {
    PlannerWrites(d, d') || MetadataChanges(d, d') || AgentReports(d, d') || ControllerRuns(d, d')
  }

  ghost predicate Run(ds: seq<State>) {
    && ds != []
    && Initial(ds[0])
    && forall i :: 0 <= i < |ds| - 1 ==> Next(ds[i], ds[i + 1])
  }

  ghost predicate Sound(d: State) {
    && (d.secret.appliedPlan != Absent ==> d.secret.appliedPlan in d.ran)
    && (d.secret.appliedChecksum.Sum? ==> d.secret.appliedChecksum.of in d.ran)
  }

  lemma SoundStep(d: State, d': State)
    requires Sound(d) && Next(d, d')
    ensures Sound(d')
  {
  }

  /** In every run, whatever the interleaving, the applied plan is one that the agent reported running. */
  lemma {:induction false} FeedbackSound(ds: seq<State>, i: nat)
    requires Run(ds) && i < |ds|
    ensures Sound(ds[i])
  {
    if i > 0 {
      FeedbackSound(ds, i - 1);
      assert Next(ds[i - 1], ds[i - 1 + 1]);
      SoundStep(ds[i - 1], ds[i]);
    }
  }

  /** assignAndCheckPlan answers nil only for the plan that the secret holds, that the agent ran, that did not fail and
      whose probes are healthy, and then it has written nothing. */
  lemma NilMeansRan(ds: seq<State>, i: nat, c: Cluster, m: string, plan: NodePlan, joinedTo: string, a: int, b: int)
    requires Run(ds) && i < |ds|
    requires m in c.secrets && c.secrets[m] == ds[i].secret
    requires SecretToNode(ds[i].secret).Readable?
    ensures var node := SecretToNode(ds[i].secret).node;
      var w := PlanAssignment(c, m, Some(node), plan, joinedTo, a, b);
      w.err == Nil ==>
        && Encoded(plan) in ds[i].ran
        && ds[i].secret.plan == Encoded(plan) == ds[i].secret.appliedPlan
        && w.cluster == c && !node.failed && node.healthy
  {
    FeedbackSound(ds, i);
  }

  // ---------------------------------------------------------------- the mark for passed probes

  /** Probe results are recorded, and all of them are good. */
  predicate ProbesGood(s: Secret) {
    s.probeStatuses.Encoded? && forall name :: name in s.probeStatuses.value ==> s.probeStatuses.value[name]
  }

  predicate Marked(s: Secret) {
    s.annotations.probesPassed != ""
  }

  /** A run of the controller that gets to the end leaves the mark exactly where it was or the probes are good, and says
      that the plan is applied exactly unless the agent's last failure was of this very plan. */
  lemma MarkedWhenGood(s: Secret, now: string)
    requires now != ""
    ensures var r := PlanSecret.Handled(s, now);
      r.outcome.Done? ==>
        && (Marked(r.secret) <==> Marked(s) || ProbesGood(s))
        && (r.outcome.planApplied <==> s.failedChecksum != Sum(s.plan))
  {
    hide SecretToNode;
  }

  /** Nobody but the controller sets the mark. */
  ghost predicate MarksAlone(ds: seq<State>) {
    forall i :: 0 <= i < |ds| - 1 && Marked(ds[i + 1].secret) && !Marked(ds[i].secret) ==>
      ControllerRuns(ds[i], ds[i + 1])
  }

  lemma MarkStep(d: State, d': State)
    requires Next(d, d') && Marked(d'.secret) && (!Marked(d.secret) ==> ControllerRuns(d, d'))
    ensures d'.secret.plan == d.secret.plan && (Marked(d.secret) || ProbesGood(d.secret))
  {
    hide SecretToNode;
  }

  /** The plan of the secret was the same from the i-th to the j-th moment. */
  ghost predicate SamePlanSince(ds: seq<State>, i: nat, j: nat) {
    j < |ds| && forall k :: i <= k <= j ==> ds[k].secret.plan == ds[j].secret.plan
  }

  /** In every run in which nobody else sets the mark, it means that the probes of the very plan that the secret holds
      have been good at some moment since it was written. */
  lemma {:induction false} MarkMeansPassed(ds: seq<State>, i: nat) returns (j: nat)
    requires Run(ds) && i < |ds| && MarksAlone(ds) && !Marked(ds[0].secret)
    ensures Marked(ds[i].secret) ==> j < i && ProbesGood(ds[j].secret) && SamePlanSince(ds, j, i)
  {
    hide Next, ProbesGood, ControllerRuns;
    j := 0;
    if Marked(ds[i].secret) && i > 0 {
      assert Next(ds[i - 1], ds[i - 1 + 1]);
      assert !Marked(ds[i - 1].secret) ==> ControllerRuns(ds[i - 1], ds[i - 1 + 1]);
      MarkStep(ds[i - 1], ds[i]);
      if Marked(ds[i - 1].secret) {
        j := MarkMeansPassed(ds, i - 1);
      } else {
        j := i - 1;
      }
    }
  }

  /** The secret reads as in sync. */
  predicate Synced(s: Secret) {
    s.plan.Encoded? && s.plan == s.appliedPlan
  }

  /** The plan that the secret is in sync with is the last one that the agent reported to have run. */
  predicate RunsWhatItShows(s: Secret) {
    Synced(s) ==> s.appliedChecksum == PlanHash(s.plan)
  }

  /** The agent reports another plan while the secret is in sync. */
  predicate ReportsLate(d: State, d': State) {
    && Synced(d.secret)
    && d'.secret.appliedChecksum != d.secret.appliedChecksum && d'.secret.appliedChecksum != PlanHash(d.secret.plan)
  }

  /** The planner goes back to the plan that was applied, while the agent's last report is of another one. */
  predicate GoesBack(d: State, d': State) {
    && d'.secret.plan != d.secret.plan && d'.secret.plan == d.secret.appliedPlan
    && d.secret.appliedChecksum != PlanHash(d.secret.appliedPlan)
  }

  predicate Misleads(d: State, d': State) {
    ReportsLate(d, d') || GoesBack(d, d')
  }

  /** One step keeps the promise exactly when it is neither a late report nor a step back. */
  lemma SyncStep(d: State, d': State)
    requires Next(d, d') && RunsWhatItShows(d.secret)
    ensures RunsWhatItShows(d'.secret) <==> !Misleads(d, d')
  {
    hide SecretToNode;
  }

  /** Synced is what the store reads. */
  lemma SyncedReads(s: Secret)
    ensures SecretToNode(s).Readable? ==> (SecretToNode(s).node.inSync <==> Synced(s))
  {
  }

  /** Over every run, in sync means last run at every moment exactly when no report comes late and no assignment goes
      back to the applied plan behind a report of another one. */
  lemma {:induction false} InSyncIsLastRunExactly(ds: seq<State>)
    requires Run(ds)
    ensures (forall i :: 0 <= i < |ds| ==> RunsWhatItShows(ds[i].secret)) <==>
            (forall i :: 0 <= i < |ds| - 1 ==> !Misleads(ds[i], ds[i + 1]))
    decreases |ds|
  {
    hide Next, Misleads, RunsWhatItShows;
    if |ds| == 1 {
      assert RunsWhatItShows(ds[0].secret) by { InitialShows(ds[0]); }
    } else {
      var n := |ds| - 1;
      var some := ds[..n];
      assert forall i :: 0 <= i < n ==> some[i] == ds[i];
      forall i | 0 <= i < n - 1 ensures Next(some[i], some[i + 1]) {
        assert Next(ds[i], ds[i + 1]);
      }
      InSyncIsLastRunExactly(some);
      assert Next(ds[n - 1], ds[n - 1 + 1]);
      assert some[n - 1] == ds[n - 1];
      if RunsWhatItShows(ds[n - 1].secret) { SyncStep(ds[n - 1], ds[n]); }
    }
  }

  lemma InitialShows(d: State)
    requires Initial(d)
    ensures RunsWhatItShows(d.secret)
  {
  }

  /** What that means for the planner: without such a step, a node that the store reads as in sync runs the plan that it
      shows. */
  lemma ReadInSyncIsLastRun(ds: seq<State>, i: nat)
    requires Run(ds) && i < |ds|
    requires forall j :: 0 <= j < |ds| - 1 ==> !Misleads(ds[j], ds[j + 1])
    ensures var r := SecretToNode(ds[i].secret);
      r.Readable? && r.node.inSync ==> ds[i].secret.appliedChecksum == PlanHash(Encoded(r.node.plan))
  {
    hide Run, Misleads;
    InSyncIsLastRunExactly(ds);
    SyncedReads(ds[i].secret);
    assert RunsWhatItShows(ds[i].secret);
  }

  /** A run in which such a report comes: the plan is replaced, the previously applied one is assigned again, and then
      the report of the plan in between arrives. The node is in sync with a plan that it no longer runs. */
  lemma InSyncIsNotLastRun(p: NodePlan, q: NodePlan, empty: Secret) returns (ds: seq<State>)
    requires p != q
    requires Initial(State(empty, {})) && empty.plan == Absent && empty.failureCount == Absent
    requires empty.probeStatuses == Absent && empty.output == Absent && empty.periodicOutput == Absent
    ensures Run(ds)
    ensures var last := ds[|ds| - 1].secret;
      && SecretToNode(last).Readable? && SecretToNode(last).node.inSync && SecretToNode(last).node.plan == p
      && last.appliedChecksum == PlanHash(Encoded(q))
  {
    var d0 := State(empty, {});
    var d1 := State(WithPlan(empty, p, "", -1, 1), {});
    var d2 := State(d1.secret.(appliedChecksum := PlanHash(Encoded(p))), {Encoded(p)});
    var d3 := State(PlanSecret.Handled(d2.secret, "now").secret, d2.ran);
    var d4 := State(WithPlan(d3.secret, q, "", -1, 1), d2.ran);
    var d5 := State(WithPlan(d4.secret, p, "", -1, 1), d2.ran);
    var d6 := State(d5.secret.(appliedChecksum := PlanHash(Encoded(q))), {Encoded(p), Encoded(q)});
    assert PlannerWrites(d0, d1) && AgentReports(d1, d2);
    assert ControllerRuns(d2, d3);
    assert PlannerWrites(d3, d4) && PlannerWrites(d4, d5) && AgentReports(d5, d6);
    ds := [d0, d1, d2, d3, d4, d5, d6];
    forall i | 0 <= i < |ds| - 1 ensures Next(ds[i], ds[i + 1]) {
      if i == 0 {} else if i == 1 {} else if i == 2 {} else if i == 3 {} else if i == 4 {} else {}
    }
  }
}
