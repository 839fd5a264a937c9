# A verified model of the cluster planner

This project models the planner of the cluster provider and the controllers that it talks to through machine-plan
secrets, and proves what they promise together. The planner runs in passes. A pass loads every machine's plan secret,
lets one of five stages act, writes plans and annotations, and persists the control plane's status only when it ended
with nil or with a waiting error. In between, agents apply plans and report, the plan-secret controller records what was
applied, the drain controller cordons, drains and uncordons nodes, and hooks answer.

Code that changes things step by step is modelled by methods over a plan store (`Store.PlanStore`), a tier pass
(`TierPass.Pass`), a drain handler, a plan-secret handler and a status handler. Each method is proved equal to a
function on values; the laws are proved about these functions, over all inputs and over all runs.

The files, one module each, from the bottom up:

- `Model`, `Names`, `PlanEntry`: plans, secrets, machines, name order, role filters and `collect`.
- `Join`, `PlanChange`, `ArgProbe`: join servers, minor changes and restart stamps, arguments and probes.
- `Store`, `PlanSecret`, `Feedback`: the plan store, the plan-secret controller, and runs of the feedback loop.
- `PlannerDrain`, `MachineDrain`, `Handshake`: both sides of the drain handshake, and its runs.
- `InitNode`, `InitNodeRuns`: finding, electing and designating the init node.
- `Scheduler`, `TierPass`, `Budget`, `Convergence`: the rolling scheduler, its budget and its progress.
- `ControlPlane`, `FullReconcile`, `Gating`, `Settled`: the control-plane object, the four tiers, what may follow what,
  and what a pass does once most machines have arrived.
- `Availability`, `TierOutcomes`, `TierSettings`, `FullOutcomes`: which machines count as unavailable and what follows
  for the others, how a tier ends and what that says of its secrets, what the strategy means for each tier, and how full
  reconciliation ends.
- `PassRuns`, `ClusterBudget`: runs of persisted passes, and the budget of the four tiers over them.
- `SnapshotCreate`, `SnapshotRestore`, `CertificateRotation`, `KeyRotation`, `Process`: the phase machines, their
  composition in a pass, and what is persisted.
- `Exclusivity`, `PassOutcomes`, `Runs`, `RestoreRuns`, `Roster`, `RestoreBarrier`, `CreateRuns`, `KeyRuns`,
  `CertificateRuns`: laws of the composition and of persisted runs.
- `Witnesses`, `AddedLimits`: two laws that fail, shown on concrete clusters.

## Where the code differs from its description

The model follows the code. These points are stated as lemmas:

- `assignAndCheckPlan` hands its last two arguments to `UpdatePlan` by position, under exchanged names
  (`Store.SwappedLimitsNeverFail`).
- `UpdatePlan` looks for the init-node mark among the annotations, where it is never put
  (`Store.JoinedServerRecorded`).
- A report that comes late leaves a node in sync with a plan that it no longer runs (`Feedback.InSyncIsNotLastRun`); it
  takes such a report, or a step back to the applied plan behind one (`Feedback.InSyncIsLastRunExactly`).
- When the clean-up after an uncordon is lost, the next update with the same options finds the node drained although it
  is uncordoned (`Handshake.LostCleanupUpdatesUncordonedNode`), and it takes such a loss (`Handshake.UncleanExactly`,
  `Handshake.DrainedBeforeUpdate`); a pending uncordon is carried out after such an update too
  (`Handshake.PendingUncordonOvertakesUpdate`).
- A minor change is not recognised when the old plan lists a major file twice
  (`PlanChange.DuplicatePathsLoseMinorChange`).
- With a fixed init node, a marked machine without the etcd role is not looked at, so a second mark can be set
  (`InitNodeRuns.SecondMark`, and exactly when: `InitNodeRuns.FixedRaises`).
- A major change that finds no room under the limit is not waited for. It stays unreported when machines that are in a
  drain take up the whole limit and give no reason to wait themselves, which happens under a limit of one
  (`Witnesses.HeldRefusesAnother`, and exactly when: `Gating.MajorGoesUnreported`), and always under a negative limit
  (`Gating.FullLimitRefuses`).
- The concurrency limits hold for each tier, not across tiers: a machine that is etcd and control plane is counted by
  both tiers, together with different others, so the limits of the two add up (`ClusterBudget.TwoTierBudget`), and two
  limits of one do let two machines be disturbed at once (`AddedLimits.LimitsAddUp`).
- Where a reconciliation is to ignore drains and concurrency, a limit of one is in force, since that is what a missing
  setting stands for (`FullReconcile.IgnoredLimitsAreOne`).
- A concurrency of "0%" means no limit (`Scheduler.ZeroIsNoLimit`).
- A plan secret with data but without a plan makes its controller dereference a missing node
  (`PlanSecret.CrashesExactly`).
- A full reconciliation that ends without an error during a restore drops the status that it computed, which is the mark
  that the cluster has been bootstrapped (`SnapshotRestore.RestartDropsBootstrapped`).
- A failed key rotation announces that it will not be started again until requested, but the failure is never persisted
  and the rotation is tried again (`KeyRuns.FailureIsNotRecorded`).
- When the leader of a key rotation is not the init node, the other etcd machines restart before the leader, not after
  it (`KeyRuns.RestartsInOrder`).
- An empty `secure-port=` hides a later one with a value (`ArgProbe.EmptyPortHidesLaterOne`).

## Model

| member | source | states |
|---|---|---|
| Names.SortedUnique | pkg/planner/planentry.go:49-51 | a list sorted by name is determined by its elements |
| Names.Sort | pkg/planner/planentry.go:49-51 | sorting gives the ordered list of the elements |
| PlanEntry.Collect | pkg/planner/planentry.go:36-54 | whatever order the machine map is walked in, the result is the selected machines, each once, in name order |
| PlanEntry.CollectedUnique | pkg/planner/planentry.go:36-54 | any name-sorted listing of exactly the selected machines is the one that collect returns |
| PlanEntry.CollectedHead | pkg/planner/planentry.go:36-54 | the first machine collected is the least selected one, and the list is empty only when nothing is selected |
| Join.ScaledIndex | pkg/planner/planner.go:455-460 | the scaled index is below the number of servers, and with at most 2^31 servers its product fits 64 bits |
| Join.ScaledMonotone | pkg/planner/planner.go:455-460 | the index never falls when the checksum grows |
| Join.BucketIsInterval | pkg/planner/planner.go:455-460 | each server gets exactly an interval of checksums |
| Join.BucketsAreFair | pkg/planner/planner.go:455-460 | the intervals cover all checksums below the top one, and their sizes differ by at most one |
| Join.DetermineJoinURL | pkg/planner/planner.go:467-496 | the join URL or the error, as determined by role, forced URL, recorded server and checksum |
| Join.CalculatedIsValid | pkg/planner/planner.go:444-463 | the calculated URL is a valid one, and is missing only when there is no control plane to join |
| Join.WorkerJoinsValidServer | pkg/planner/planner.go:467-496 | a worker that is not the init node is only sent to a valid server, and exactly when it gets none |
| Join.RecordedServerSticks | pkg/planner/planner.go:475-482 | the recorded server stays the answer in every later cluster in which it is valid |
| Join.WorkerIsSentTo | pkg/planner/planner.go:444-496 | in terms of labels: a machine with the worker role alone that is not told whom to join is only sent to a control-plane machine, or the init node, that is not deleting and has that URL |
| Join.ChecksumPicksServer | pkg/planner/planner.go:444-463 | of the joinable control-plane machines in name order, the one whose interval holds the checksum is joined |
| Join.GivenServerSticks | pkg/planner/planner.go:475-482 | the server that a worker was given with its plan is the one that it is sent to in every later pass, as long as its secret is left alone and the server can be joined |
| PlanChange.MinorPlanChangeDetected | pkg/planner/planner.go:559-604 | the loops over a shrinking map compute the minor-change test |
| PlanChange.MinorChangeMeans | pkg/planner/planner.go:559-604 | for all plans: minor exactly when all but the files agree, no major file is lost, and every altered file is minor and there is one |
| PlanChange.MinorChangeOfUniquePaths | pkg/planner/planner.go:559-604 | with unique paths: every removed file minor, every added or changed file minor, and at least one added or changed |
| PlanChange.DuplicatePathsLoseMinorChange | pkg/planner/planner.go:578-591 | an input with a repeated path for which that reading fails |
| PlanChange.MinorChangeNeverDrains | pkg/planner/drain.go:15-35 | a minor change is a change, keeps the restart stamp and never calls for a drain |
| PlanChange.RestartStampMeans | pkg/planner/drain.go:15-27 | the restart stamp is the value that the instructions set first under either of its two names, or empty when none does |
| PlannerDrain.ReportedMeans | pkg/planner/drain.go:106-114 | a drain error is passed over exactly when it is empty or says anywhere that a service cannot be reached |
| ArgProbe.RenderArgAndMount | pkg/planner/planner.go:705-758 | the given arguments come back with the certificate directory and the port added where missing, and on RKE2 one mount is appended |
| ArgProbe.ProbeAgrees | pkg/planner/probe.go:95-115 | the probe of the rendered arguments uses the port of the first secure-port argument or the default, and on RKE2 its certificate is the given file or lies in the mounted directory |
| ArgProbe.ProbeOfRendered | pkg/planner/probe.go:95-115 | adding the defaults never changes the probe |
| ArgProbe.PortIsFirstNonEmpty | pkg/planner/planner.go:639-662 | the port is the first non-empty one or the default exactly when the first secure-port argument is not empty or no later one names another port |
| ArgProbe.EmptyPortHidesLaterOne | pkg/planner/planner.go:639-662 | an input for which the first non-empty port is not used |
| Store.PlanStore.UpdatePlan | pkg/planner/store.go:360-429 | refused limits change nothing; otherwise the secret gets the plan and limits, loses its probe results, and the entry is reloaded from it |
| Store.PlanStore.UpdateMetadata | pkg/planner/store.go:431-449 | labels and annotations are stored and the entry is reloaded |
| Store.PlanStore.AssignAndCheckPlan | pkg/planner/store.go:478-495 | assigns a plan that differs and waits; otherwise answers by failure, sync and health, without writing |
| Store.UnreadableExactly | pkg/planner/store.go:171-279 | exactly which parts of a secret, when they do not decode, keep it from being read |
| Store.ReadsWhatIsThere | pkg/planner/store.go:171-279 | what is read of a secret is what it says, part by part |
| Store.FreshAssignment | pkg/planner/store.go:171-279 | right after a plan is written the node is in sync, failed or usable exactly as far as the last applied and last failed plans say |
| Store.JoinedServerRecorded | pkg/planner/store.go:386-398 | when exactly a joined server is on record after a plan was written |
| Store.LimitsAreReachable | pkg/planner/store.go:360-414 | limits are refused exactly when the attempts would end before the failures count, and then nothing is written; so whatever is written, the attempts reach the threshold |
| Store.NewPlanStartsClean | pkg/planner/store.go:478-495 | a plan that is neither the last applied nor the last failed one starts neither in sync nor failed nor usable |
| Store.SwappedLimitsNeverFail | pkg/planner/etcdcreate.go:90-92 | the limits (1, -1) allow one attempt, and no number of failures marks the plan as failed |
| PlanSecret.Handler.OnChange | pkg/controllers/plansecret/plansecret.go:66-131 | the applied plan and the probes-passed mark after one run, and its outcome, including the missing node |
| PlanSecret.CrashesExactly | pkg/controllers/plansecret/plansecret.go:66-78 | the handler dereferences a missing node exactly on a secret with data that all reads, but without a plan |
| Feedback.FeedbackSound | pkg/controllers/plansecret/plansecret.go:90-120 | in every run the applied plan is one that the agent reported running |
| Feedback.NilMeansRan | pkg/planner/store.go:478-495 | assignAndCheckPlan answers nil only when the agent ran exactly that plan, did not fail and is healthy |
| Feedback.MarkedWhenGood | pkg/controllers/plansecret/plansecret.go:97-130 | a run of the controller leaves the mark for passed probes exactly where it was or all recorded probes are good, and calls the plan applied unless the last failure was of this plan |
| Feedback.MarkMeansPassed | pkg/controllers/plansecret/plansecret.go:102-112 | over every run in which nobody else sets the mark, it means that the probes of the very plan that the secret holds have been good at some moment since it was written |
| Feedback.SyncStep | pkg/controllers/plansecret/plansecret.go:90-99 | which single steps keep the promise that in sync means last run: all but a late report of another plan, and an assignment that goes back to the applied plan behind such a report |
| Feedback.InSyncIsLastRunExactly | pkg/planner/store.go:277-278 | over every run, in sync means last run at every moment exactly when no such step occurs |
| Feedback.ReadInSyncIsLastRun | pkg/planner/store.go:277-278 | without such a step, a node that the store reads as in sync runs the plan that it shows |
| Feedback.InSyncIsNotLastRun | pkg/planner/store.go:277-278 | a run at whose end a node is in sync with a plan that is not the last one it ran |
| MachineDrain.Handler.Drain | pkg/controllers/machinedrain/machinedrain.go:143-170 | cordon, announce, wait for the hooks, drain, and record the request as done |
| MachineDrain.Handler.Undrain | pkg/controllers/machinedrain/machinedrain.go:109-141 | announce, wait for the hooks, uncordon, and clean the handshake's annotations |
| MachineDrain.Handler.OnChange | pkg/controllers/machinedrain/machinedrain.go:44-93 | which of the two runs, and the deferred update that records or clears the error, with or without the changed copy |
| Handshake.AlwaysConsistent | pkg/controllers/machinedrain/machinedrain.go:80-90 | in every reachable state: uncordon, pre-drain and drain-done imply drain, post-drain implies uncordon, drain-done names options that the hooks approved, and the node is cordoned and drained under them unless a clean-up was lost, when it is not drained under them |
| Handshake.UncleanExactly | pkg/controllers/machinedrain/machinedrain.go:56-80 | over every run, a clean-up counts as lost exactly when some handler step uncordoned the node, neither its own update nor the deferred one stored the clean-up, and no later step recorded a drain or a clean-up |
| Handshake.SavedStaysClean | pkg/controllers/machinedrain/machinedrain.go:125-141 | as long as the updates of the annotations are saved, no clean-up is lost |
| Handshake.FailedCallsClaimNothing | pkg/controllers/machinedrain/machinedrain.go:109-170 | a step whose calls fail claims nothing: the node is not said to be cordoned, drained or uncordoned, nothing is recorded as done, and the error is recorded |
| Handshake.DrainedBeforeUpdate | pkg/planner/drain.go:55-88 | when a major update for which draining applies goes out, the request is recorded as done and its hooks have answered; the node is drained under exactly these options if and only if no clean-up was lost; and it is drained and cordoned whenever no uncordon is requested or its hooks are not announced |
| Handshake.GuardIsExact | pkg/planner/drain.go:55-88 | what the annotations can tell: once the post-drain hooks have answered, they guarantee a drained node if and only if no uncordon is requested |
| Handshake.LostCleanupUpdatesUncordonedNode | pkg/controllers/machinedrain/machinedrain.go:56-80 | a run in which a clean-up is lost and the update reaches an uncordoned node |
| Handshake.PendingUncordonOvertakesUpdate | pkg/controllers/machinedrain/machinedrain.go:80-90 | an uncordon that is pending when such an update goes out is carried out afterwards |
| Handshake.RoundTrip | pkg/planner/drain.go:55-104 | a drain and an uncordon with all hooks leave the annotations as they were and the node uncordoned |
| InitNode.ClearInitNodeMark | pkg/planner/initnode.go:16-26 | a mark is removed, with the skip error exactly when there was one |
| InitNode.SetInitNodeMark | pkg/planner/initnode.go:30-42 | a mark is set, with the skip error exactly when it was missing |
| InitNode.FindAndDesignateFixedInitNode | pkg/planner/initnode.go:46-85 | the machine labelled with the id, the marks cleared or set on the way, and the error |
| InitNode.FindInitNode | pkg/planner/initnode.go:91-137 | the marked machine with its join URL, or the error for none, several, an unfit one or a better alternative |
| InitNode.ElectInitNode | pkg/planner/initnode.go:142-190 | the outcome of the election, with the marks it clears or sets |
| InitNode.DesignateInitNodeByMachineID | pkg/planner/initnode.go:195-233 | the outcome of the designation, with the marks it clears or sets |
| InitNodeRuns.ElectedRelabels | pkg/planner/initnode.go:142-190 | an election changes nothing but marks, and nothing at all when it ends with nil |
| InitNodeRuns.ElectionRaisesFromNone | pkg/planner/initnode.go:152-190 | a call adds a mark only when there was none, then exactly one, on the first candidate by name with a join URL or else the first |
| InitNodeRuns.NoReelection | pkg/planner/initnode.go:152-160 | where re-election is not allowed, a marked machine that no longer serves is waited for, and nothing is changed |
| InitNodeRuns.FixedStep | pkg/planner/initnode.go:60-81 | one call with a fixed init node: it rests, sets that mark, or clears the other etcd marks, and when each |
| InitNodeRuns.FixedRaises | pkg/planner/initnode.go:60-81 | with a fixed init node, exactly when the number of marks grows, by which mark, and when that is a second one |
| InitNodeRuns.SecondMark | pkg/planner/initnode.go:60-81 | a cluster in which a call goes from one mark to two |
| InitNodeRuns.ElectionConverges | pkg/planner/initnode.go:142-190 | at most two calls skip before a fixed point that answers nil with one mark on a candidate |
| InitNodeRuns.FixedElectionConverges | pkg/planner/initnode.go:46-85 | with a fixed init node that is labelled as one machine, at most two calls skip before a fixed point that answers nil with the mark on it |
| InitNodeRuns.FixedElectionWaits | pkg/planner/initnode.go:142-151 | labelled as none or as several, every call waits and changes nothing |
| InitNodeRuns.DesignationConverges | pkg/planner/initnode.go:195-233 | one call puts the marks among the etcd machines on exactly those with the id, skips exactly when there was something to change, and the next call answers nil |
| Scheduler.CalculateConcurrency | pkg/planner/planner.go:527-557 | the limit for the counted machines and the number of unavailable ones; which these are, told from the secrets, says `Availability.CounterStartsAtDown` |
| Scheduler.ZeroIsNoLimit | pkg/planner/planner.go:549-556 | a percentage comes to a limit of nothing exactly when it is zero or no machine is counted, and then every major change is admitted |
| Availability.CounterStartsAtDown | pkg/planner/planner.go:500-539 | the counter starts at the number of the tier's machines that have not applied their plan, are in the drain handshake, or run their desired plan with a failing probe; and a percentage is taken of the number of the tier's machines |
| Availability.PercentRoundsUp | pkg/planner/planner.go:541-556 | a number is the limit itself, a missing setting means one, and a percentage is rounded up |
| Availability.FullTierSpares | pkg/planner/planner.go:893-910 | when as many machines of a tier are unavailable as a positive limit allows, no available one is given a major change or asked to drain, unless its plan is broken or its probes have never passed |
| Availability.PrivilegedAreServed | pkg/planner/planner.go:893-933 | however many are unavailable, a pass without a failing call gives its plan to, or asks to drain, every machine that is in the drain handshake or whose plan is broken or unproven |
| Availability.WritesWhatIsGenerated | pkg/planner/planner.go:829-934 | whatever plan a tier writes is the one generated for that machine, with the server that the generator names and the limits (-1, 1) |
| TierPass.ConditionStatus | pkg/planner/planner.go:157-198 | an unknown machine or a status that cannot be stored is an error; otherwise waiting exactly when some machine is pending |
| TierPass.Pass.Disrupt | pkg/planner/planner.go:907-933 | counter, drain request, plan write and messages for an admitted major change |
| TierPass.Pass.Settle | pkg/planner/planner.go:937-958 | uncordon request, or one of the three reasons to wait, or ready |
| TierPass.Pass.Visit | pkg/planner/planner.go:858-960 | one machine of the second loop, with all its branches |
| TierPass.Pass.Run | pkg/planner/planner.go:858-960 | the second loop, which stops at the first error |
| TierPass.Gather | pkg/planner/planner.go:829-852 | the first loop, which stops at the first entry without a join URL or a plan |
| TierPass.Reconcile | pkg/planner/planner.go:818-1000 | a whole tier: the cluster it leaves and its error |
| Budget.CounterCounts | pkg/planner/planner.go:854-910 | the counter is the number unavailable at first plus the number of available machines let through |
| Budget.LoopBudget | pkg/planner/planner.go:858-934 | the disturbed machines among any that are watched stay within the larger of their number and the limit, but for their own minor changes and exemptions, whatever state the other machines of the loop are in |
| Budget.CountCovers | pkg/planner/planner.go:500-511 | the counter starts at no less than the number of disturbed machines |
| Budget.PassBudget | pkg/planner/planner.go:818-1000 | after one pass of a tier the disturbed machines among any that are watched are at most the larger of their number and the limit plus those that the tier does not plan for, plus minor and exempt ones |
| Budget.OutsideBudget | pkg/planner/planner.go:818-1000 | a tier leaves alone the machines that it does not plan for |
| Budget.OthersNeverDisturb | pkg/controllers/plansecret/plansecret.go:66-131 | agents, controllers and hooks never disturb a machine that was not disturbed |
| Budget.RunBudget | pkg/planner/planner.go:818-1000 | the budget over every run of passes, over the tier of the watched machines under the limit or over other tiers under any, whatever the interleaving and the desired plans |
| Budget.PlainRunBudget | pkg/planner/planner.go:818-1000 | without minor changes and exemptions the limit is kept at every moment |
| ClusterBudget.QuietTouches | pkg/planner/planner.go:964-999 | a tier that lets the pass go on touches no more machines than it has minor changes for |
| ClusterBudget.RolesServed | pkg/planner/planner.go:350-399 | which of the four tiers plan for a machine, by its roles and its mark |
| ClusterBudget.FullBudget | pkg/planner/planner.go:328-411 | the budget over one pass of all four tiers, which work on one snapshot |
| ClusterBudget.EtcdLimit | pkg/planner/planner.go:350-375 | the two etcd tiers always work under a limit of one |
| ClusterBudget.TierBudget | pkg/planner/planner.go:328-411 | over every run of persisted passes and anything in between: machines that one tier alone plans for, be they etcd, control plane or workers, stay within the limit of that tier |
| ClusterBudget.TwoTierBudget | pkg/planner/planner.go:369-384 | with machines that two tiers plan for, the limits of the two add up |
| ClusterBudget.TierLooksNoFurther | pkg/planner/planner.go:369-384 | a tier disturbs its available machine however many of the others are disturbed |
| AddedLimits.LimitsAddUp | pkg/planner/planner.go:369-384 | the bound for two tiers is reached: a cluster and a run of two persisted passes, under limits of one and without extras, that disturb two machines |
| Convergence.VisitEffect | pkg/planner/planner.go:880-940 | a visit keeps the secret, writes the desired plan, requests a drain or requests an uncordon, and when each occurs; only a plan write can end with an error |
| Convergence.PassNeverRaises | pkg/planner/planner.go:858-934 | in every pass with these goals, whatever state the machines are in, every plan write turns a machine that differed into one that does not, and nothing goes the other way |
| Convergence.PassAdvances | pkg/planner/planner.go:858-934 | when no machine of the tier is unavailable and some machine does not have its desired plan, the pass gives a machine its desired plan or asks it to drain, whatever errors occur; this includes the repair of a machine with failing probes |
| Convergence.FreeMoves | pkg/planner/planner.go:858-958 | so does a pass that finds a machine drained as requested and without its plan, or healthy with its plan and not uncordoned: some machine comes closer to its goal |
| Convergence.PassMoves | pkg/planner/planner.go:858-958 | a pass of either kind lowers the number of steps to go |
| Convergence.CalmIsFree | pkg/planner/planner.go:500-511 | a pass that finds every machine idle is of one of the two kinds |
| Convergence.OthersNeverRaise | pkg/controllers/machinedrain/machinedrain.go:44-93 | the other parties never move a machine away from its goal |
| Convergence.RunConverges | pkg/planner/planner.go:818-1000 | over every run with these goals, from whatever cluster, no step adds to the steps to go, and every pass of these kinds takes one off |
| Convergence.ThreePassesPerMachine | pkg/planner/planner.go:818-1000 | three such passes per machine, among any others, bring every machine to its desired plan |
| FullReconcile.ReconcileAll | pkg/planner/planner.go:328-411 | election, four tiers and the status they leave, with ignorable errors passed over; what each tier works with says `TierSettings.TiersAreAsSet`, and how it ends `FullOutcomes.FullEnds` |
| FullReconcile.IgnoredLimitsAreOne | pkg/planner/planner.go:338-346 | ignoring the limits means a limit of one machine in both tiers, and no drains or hooks |
| TierSettings.TiersAreAsSet | pkg/planner/planner.go:328-404 | every tier reached is the one that the strategy describes, limit and drain included, or the default while these are ignored; etcd and control-plane machines are sent to the init node, which has that URL, the others are not told whom to join |
| TierSettings.MajorChangesAreCleared | pkg/planner/planner.go:338-404 | with the limits in force, a machine with a node gets a major change with a new restart stamp only when the drain that the strategy asks for on a machine of its role is done without an error, or none is asked for |
| TierSettings.PersistedChangesAreCleared | pkg/planner/planner.go:325-404 | so does every persisted pass in which no operation is under way |
| TierSettings.TierRequests | pkg/planner/drain.go:55-88 | a drain is requested only on a machine with a node, under options that ask for one, and for a desired plan with another restart stamp than the applied one |
| TierSettings.QuietTiersAreConnected | pkg/planner/planner.go:937-958 | in every tier that goes by, a machine with its desired plan has an up-to-date kubelet as far as the control plane's status has the agent connected, and is not of the control plane unless it has |
| FullOutcomes.FullEnds | pkg/planner/planner.go:328-411 | full reconciliation ends with nil exactly when all four tiers were reached and ended with nil; workers get their turn only after the server tiers went by, with a control-plane machine to join, once the control plane counts as initialized and ready |
| FullOutcomes.InitializedIsEarned | pkg/planner/planner.go:386-396 | a persisted pass makes the control plane initialized only when the three server tiers went by in it and a control-plane machine can be joined |
| Gating.QuietTierIsMinor | pkg/planner/planner.go:964-999 | a tier that ends with nil or an ignorable error has made minor changes at most |
| Gating.MajorWriteIsDrained | pkg/planner/planner.go:907-921 | a major plan is written only to an admitted machine, and where draining applies only when the request in force is recorded as done |
| Gating.FullReconcileGated | pkg/planner/planner.go:328-411 | the tiers run in order, each on what the one before left; every tier but the last one reached made minor changes at most; one that did more ended the pass with an error that is neither nil nor ignorable |
| Gating.QuietTierAccounts | pkg/planner/planner.go:858-999 | what nil says of every machine of the tier: at rest with its desired plan, or given a minor change, or refused under the limit |
| Gating.VisitSilent | pkg/planner/planner.go:858-960 | exactly when a visit gives no reason to wait for its machine |
| Gating.LoopSilent | pkg/planner/planner.go:858-960 | exactly when the whole loop gives none: every machine is silent, and a major change is there only if the counter has reached the limit from the start |
| Gating.MajorGoesUnreported | pkg/planner/planner.go:858-999 | exactly when a tier with a pending major change gives no reason to wait: all machines silent, and as many of them held in a drain as the limit, which is not zero, allows |
| Gating.QuietTierHolds | pkg/planner/planner.go:964-999 | a tier that ends with nil or an ignorable error leaves a major change pending only then |
| Gating.FullLimitRefuses | pkg/planner/planner.go:907-910 | once the counter has reached the limit, a negative one from the start, a quiet machine is not let through and leaves no reason to wait |
| Witnesses.HeldRefusesAnother | pkg/planner/planner.go:858-999 | a loaded cluster and a control-plane tier with a limit of one that answers nil and leaves the major change of one of its two machines pending |
| Gating.SilentTierIsNil | pkg/planner/planner.go:964-999 | a tier that goes by silently, with machines whose own conditions say nothing, ends with nil |
| TierOutcomes.TierEnds | pkg/planner/planner.go:962-999 | a tier ends with nil or an ignorable error exactly when it went by silently, all its machines are provisioned, and it is not required and empty; with nil exactly when, besides, none of its machines complains |
| TierOutcomes.StatusFailures | pkg/planner/planner.go:157-198 | a machine status that cannot be stored is an error, and nothing else is one once the machines have been gone through |
| TierOutcomes.QuietIsExplained | pkg/planner/planner.go:858-999 | then every machine of the tier runs its desired plan, applied, healthy and in no drain, or was just given a minor change, or was refused because as many machines as the limit allows are unavailable; told from the secrets |
| Gating.RestingTier | pkg/planner/planner.go:818-1000 | a tier whose machines all hold their desired plans, applied and healthy, answers nil and changes nothing |
| Settled.SettledIsLeftAlone | pkg/planner/planner.go:328-411 | a settled cluster is left alone: full reconciliation answers nil and changes nothing |
| Settled.LastIsWritten | pkg/planner/planner.go:858-934 | where all machines of a tier have arrived but one, which lags by a major change with nothing to drain, just that one gets its plan, and the pass ends with the tier |
| ControlPlane.Assign | pkg/planner/store.go:478-495 | a generated plan is assigned and checked, or the error of generating it is returned |
| ControlPlane.AssignedNil | pkg/planner/store.go:478-495 | nil exactly when the machine holds that plan, applied, healthy and not failed, and then nothing is written |
| ControlPlane.RolledMeans | pkg/planner/certificaterotation.go:37-52 | a row of assignments only touches the first machine that has not completed its plan |
| SnapshotCreate.TakeSnapshots | pkg/planner/etcdcreate.go:39-61 | every etcd machine gets its snapshot plan and the errors are collected |
| SnapshotCreate.StartServices | pkg/planner/etcdcreate.go:65-95 | the bootstrap tier, then the desired plans of the other machines one by one |
| SnapshotCreate.NoteFailures | pkg/planner/etcdcreate.go:149-166 | the state becomes failed exactly when some error is not a waiting one; which machines bring such an error says `CreateRuns.FailureIsReal` |
| SnapshotCreate.CreateEtcdSnapshot | pkg/planner/etcdcreate.go:123-197 | the stage: status, cluster and error in every phase |
| SnapshotRestore.ElectForRestore | pkg/planner/etcdrestore.go:613-635 | by snapshot: designation, election, or an error |
| SnapshotRestore.StopAll | pkg/planner/etcdrestore.go:654-685 | every planned server gets its stop plan unless it holds it |
| SnapshotRestore.AwaitSync | pkg/planner/etcdrestore.go:687-697 | waiting exactly when some planned server is not in sync |
| SnapshotRestore.RunServiceStop | pkg/planner/etcdrestore.go:639-702 | the outcome of the service stop |
| SnapshotRestore.RunRestorePlan | pkg/planner/etcdrestore.go:199-223 | the restore plan goes to the one init node |
| SnapshotRestore.RunPodCleanup | pkg/planner/etcdrestore.go:225-273 | the pod clean-up goes to the init node, or to it and the first control-plane machine |
| SnapshotRestore.RunNodeCleanup | pkg/planner/etcdrestore.go:275-301 | the node clean-up goes to the one init node |
| SnapshotRestore.RestoreEtcdSnapshot | pkg/planner/etcdrestore.go:777-866 | the stage: status, cluster and error in every phase |
| SnapshotRestore.RestartDropsBootstrapped | pkg/planner/etcdrestore.go:836-845 | what the status loses when a reconciliation during a restore ends with nil: the mark that the cluster has been bootstrapped, and nothing else |
| CertificateRotation.ShouldRotateEntry | pkg/planner/certificaterotation.go:254-299 | whether a rotation of these services applies to a machine with these roles; service by service, that is `CertificateRuns.OneServiceApplies` |
| CertificateRotation.CollectOrdered | pkg/planner/certificaterotation.go:62-68 | the order of rotation, whatever order the map is walked in |
| CertificateRotation.RotateEach | pkg/planner/certificaterotation.go:37-52 | the loop over the applicable machines and the error it reports |
| CertificateRotation.RotateCertificates | pkg/planner/certificaterotation.go:16-60 | the stage: status, cluster and error |
| KeyRotation.FindLeader | pkg/planner/encryptionkeyrotation.go:294-322 | the recorded leader while suitable; a new one only during the preparation |
| KeyRotation.RunCommand | pkg/planner/encryptionkeyrotation.go:481-541 | the leader's command and the verdict on its outputs, which `KeyRuns.VerdictMeans` reads off the outputs |
| KeyRotation.RestartService | pkg/planner/encryptionkeyrotation.go:394-476 | one restart, with the stage it reports |
| KeyRotation.RestartNodes | pkg/planner/encryptionkeyrotation.go:351-389 | the restarts in order, up to the first that is not done |
| KeyRotation.RotateEncryptionKeys | pkg/planner/encryptionkeyrotation.go:116-216 | the stage: status, cluster and error in every phase |
| Process.ClusterIsSane | pkg/planner/planner.go:436-441 | a machine that is not deleting for each of the three roles |
| Process.RunPass | pkg/planner/planner.go:200-326 | a pass: status, cluster and error |
| PassOutcomes.IncompleteIsLeftAlone | pkg/planner/planner.go:248-282 | a pass over a cluster without a live machine of each role changes nothing in it, and the control plane no longer counts as initialized or ready |
| PassOutcomes.LostEtcdIsLeftAlone | pkg/planner/planner.go:310-325 | an ordinary pass over a cluster that is paused, or whose etcd machines have no plans although it was set up before, changes nothing in it |
| Process.StatusHandler.OnChange | pkg/controllers/planner/controller.go:82-135 | which errors become success, and the conditions that go with them |
| Process.StatusHandler.Sync | pkg/generated/controllers/rke.cattle.io/v1/rkecontrolplane.go:90-128 | an error reverts the status, and a changed status is stored |
| PassOutcomes.PersistsStage | pkg/controllers/planner/controller.go:82-135 | what is persisted of the acting stage: all conditions after nil, unclear readiness after waiting, nothing after any other error |
| PassOutcomes.AppliedIsDone | pkg/controllers/planner/controller.go:122-134 | a spec is put on record as applied, and the control plane becomes ready, only in a pass in which no operation is under way and all four tiers ended with nil for this spec |
| Exclusivity.CreatedNil | pkg/planner/etcdcreate.go:123-197 | nil from snapshot creation means that nothing was changed |
| Exclusivity.RestoreNil | pkg/planner/etcdrestore.go:777-866 | nil from the restore means that nothing was changed and no restore is under way |
| Exclusivity.RotationFrame | pkg/planner/certificaterotation.go:16-60 | certificate rotation only touches its generation, and nil means that nothing was changed |
| Exclusivity.KeyNil | pkg/planner/encryptionkeyrotation.go:116-216 | nil from key rotation means that nothing was changed |
| Exclusivity.StagesExclude | pkg/planner/planner.go:294-325 | in every pass at most one stage acts, and ordinary reconciliation runs only when all four operations did nothing |
| Exclusivity.PersistedMeans | pkg/generated/controllers/rke.cattle.io/v1/rkecontrolplane.go:90-128 | what is persisted is the progress as before, or that of the acting stage after nil or waiting, or the loss of initialization |
| RestoreRuns.EveryPassMoves | pkg/planner/etcdrestore.go:777-866 | each persisted pass keeps the phase, advances one place, resets or restarts it, and counts the configuration generation |
| RestoreRuns.AlwaysUninitializedWhileDown | pkg/planner/etcdrestore.go:807-835 | in every run the control plane is neither initialized nor ready during shutdown, restore and pod clean-up |
| RestoreRuns.GenerationCountsRestorations | pkg/planner/etcdrestore.go:826-830 | over every run the configuration generation grows by the number of restorations |
| RestoreBarrier.RestoreOnlyAfterStop | pkg/planner/etcdrestore.go:639-702 | the restore phase is entered only when every planned machine that is not Windows holds its stop plan in sync and the election has come to rest, and that pass writes nothing |
| RestoreBarrier.PassWrites | pkg/planner/etcdrestore.go:199-273 | a pass in the restore or pod-clean-up phase gives plans to the init node and the first control-plane machine at most |
| Roster.RestoreElectionNil | pkg/planner/etcdrestore.go:613-635 | the election for a restore answers nil exactly when the mark already is where it belongs |
| Roster.RestoreStays | pkg/planner/etcdrestore.go:613-635 | and it goes on answering nil as long as machines, roles, marks and join URLs stay the same |
| RestoreBarrier.PodsCleanedStands | pkg/planner/etcdrestore.go:225-273 | the pod clean-up keeps the mark on its machine, or ends with not exactly one mark and then does nothing any more |
| RestoreBarrier.OthersKeepPlans | pkg/planner/etcdrestore.go:816-835 | with a fixed roster, from the restore phase until the pod clean-up is over, all machines but two keep their plans: the one with the mark when it began and the first control-plane machine |
| RestoreBarrier.OthersStayStopped | pkg/planner/etcdrestore.go:639-702 | all machines but these two hold the stop plan that they had applied when the restore began |
| RestoreBarrier.RestoreAdvanceIsEarned | pkg/planner/etcdrestore.go:803-866 | the persisted restore advances only when the work of the phase it leaves is done |
| RestoreBarrier.AdvanceIsAllowed | pkg/planner/etcdrestore.go:786-866 | and only when the snapshot was found and its version does not rule it out, the cluster could be paused or unpaused as the phase asks, and, as the restore begins, it no longer counts as bootstrapped |
| RestoreBarrier.DoneIsGranted | pkg/planner/etcdrestore.go:803-866 | the other way round: a pass that gets to the restore and can store its status takes it on once the work of the phase is done and it may go on |
| RestoreBarrier.AttemptsAreLimited | pkg/planner/etcdrestore.go:199-301 | the restoration gets one attempt, and each clean-up five |
| RestoreBarrier.ShutdownStores | pkg/planner/etcdrestore.go:654-685 | a persisted shutdown pass that reports no error leaves every planned machine that is not Windows with its stop plan in the secret, without limits if it is new |
| CreateRuns.StepMoves | pkg/planner/etcdcreate.go:123-197 | how each pass may move the persisted creation |
| CreateRuns.OverStaysOver | pkg/planner/etcdcreate.go:184-187 | a snapshot that is finished or has failed is not taken again until the spec asks for another one |
| CreateRuns.AdvanceIsEarned | pkg/planner/etcdcreate.go:142-183 | the creation advances only when every etcd machine has applied its snapshot plan, and its desired plan again |
| CreateRuns.FailureIsReal | pkg/planner/etcdcreate.go:142-166 | a snapshot is recorded as failed only when there is no etcd machine, or some etcd machine's plan cannot be generated or stored, or it holds the plan and has failed; otherwise it is still being taken or the restart begins |
| CreateRuns.EarnedIsGranted | pkg/planner/etcdcreate.go:142-183 | the other way round: a pass that gets there and can store its status goes on to the restart exactly when every etcd machine has taken the snapshot, records a failure exactly when one has failed, and finishes once the cluster is back |
| CreateRuns.FinishIsEarned | pkg/planner/etcdcreate.go:65-95 | the creation is finished only when the bootstrap tier ended with nil and every other etcd machine that is not deleting has applied its desired plan |
| KeyRuns.StepMoves | pkg/planner/encryptionkeyrotation.go:116-216 | each persisted pass advances one place, enters, resets, rejects or chooses a leader during preparation, or keeps the state |
| KeyRuns.LeaderNeverChanges | pkg/planner/encryptionkeyrotation.go:294-322 | past the preparation the recorded leader never changes while the rotation is under way |
| KeyRuns.LeaderMeans | pkg/planner/encryptionkeyrotation.go:294-328 | who leads, in terms of labels and machines: the recorded leader while suitable; in the preparation the init node if it is of the control plane, or else the first suitable machine by name; nobody otherwise |
| KeyRuns.NewLeaderIsSuitable | pkg/planner/encryptionkeyrotation.go:294-328 | a persisted pass records a new leader only in the preparation, when the recorded one is not suitable, and the new one is suitable or the init node |
| KeyRuns.DoneStaysDone | pkg/planner/encryptionkeyrotation.go:243-272 | a generation recorded as done is not rotated again until the spec changes |
| KeyRuns.NoPlaceIsSkipped | pkg/planner/encryptionkeyrotation.go:165-213 | over a run the rotation never goes back and moves at most one place per pass |
| KeyRuns.AdvanceIsEarned | pkg/planner/encryptionkeyrotation.go:165-213 | the rotation advances only when the leader has run the command with an allowed stage, or every machine has restarted |
| KeyRuns.VerdictMeans | pkg/planner/encryptionkeyrotation.go:521-541 | when exactly the leader's one-time and periodic outputs say that the command is done, that it has gone wrong, or that it is to be waited for |
| KeyRuns.CommandIsDone | pkg/planner/encryptionkeyrotation.go:521-541 | a persisted pass leaves a phase with a command only when the recorded leader's outputs say that it is done; after a re-encryption, only when one of them reports that it has finished |
| KeyRuns.DoneIsGranted | pkg/planner/encryptionkeyrotation.go:165-213 | the other way round: a pass that gets to the rotation and can store its status takes it on once the work of the phase is done |
| KeyRuns.DueIsStarted | pkg/planner/encryptionkeyrotation.go:243-272 | a pass that gets to the rotation and can store its status starts one exactly when it is due |
| KeyRuns.MovesAreAllowed | pkg/planner/encryptionkeyrotation.go:116-216 | the rotation starts only for an initialized and ready cluster of a release that supports it, leaves its preparation only once the cluster is paused, and ends only once it is unpaused |
| KeyRuns.FailureIsNotRecorded | pkg/planner/encryptionkeyrotation.go:750-755 | a failure is reverted with the status; a persisted one means an unsupported release |
| KeyRuns.RestartVisitsEachOnce | pkg/planner/encryptionkeyrotation.go:330-389 | a restart phase visits every control-plane machine exactly once and no machine twice |
| KeyRuns.RestartBarrier | pkg/planner/encryptionkeyrotation.go:351-389 | it ends with nil only when all of them have restarted and report one stage |
| KeyRuns.RestartsInOrder | pkg/planner/encryptionkeyrotation.go:351-389 | a restart phase touches only the first machine of its order that has not restarted |
| KeyRuns.AttemptsAreLimited | pkg/planner/encryptionkeyrotation.go:394-520 | the leader gets one attempt at a command, and every machine five at a restart |
| CertificateRuns.RotationOrderMeans | pkg/planner/certificaterotation.go:62-68 | the order lists every machine with a role exactly once, by rank of roles and by name within a rank |
| CertificateRuns.GenerationMeansAllRotated | pkg/planner/certificaterotation.go:34-59 | the generation advances only when all applicable machines have applied the rotation, healthy and not failed, in one pass |
| CertificateRuns.GenerationIsDue | pkg/planner/certificaterotation.go:54-87 | and only for an initialized control plane, a generation that is not on record, and once the cluster is unpaused |
| CertificateRuns.RotatedIsRecorded | pkg/planner/certificaterotation.go:34-59 | the other way round: a pass that gets to the rotation and can store its status records the generation once every machine that it applies to has applied it |
| CertificateRuns.WaitingIsPaused | pkg/planner/certificaterotation.go:45-51 | a rotation that waits for a machine has paused the cluster |
| CertificateRuns.OneServiceApplies | pkg/planner/certificaterotation.go:254-299 | service by service, which roles a rotation of it applies to |
| CertificateRuns.ServicesApply | pkg/planner/certificaterotation.go:254-299 | a rotation applies to every machine when it names no service, and otherwise to those that one of its services runs on |
| CertificateRuns.RotationWritesWithin | pkg/planner/certificaterotation.go:34-52 | a rotation gives new plans only to machines that it applies to |
| CertificateRuns.EtcdRotationSparesOthers | pkg/planner/certificaterotation.go:254-299 | a rotation of the etcd certificates alone gives no plan to a machine without the etcd role |
| CertificateRuns.RotatedWhereItRuns | pkg/planner/certificaterotation.go:34-59 | a generation is recorded only when every machine that one of its services runs on has applied its rotation plan |
| CertificateRuns.RotationIsAWave | pkg/planner/certificaterotation.go:34-52 | in every run of persisted passes during a rotation, the machines that hold the rotation plan are the first ones of the order, and at most one of them has not applied it |

## Left out

- Join.DetermineJoinURL: does not model nil arguments, because every caller passes the objects it has loaded.
- PlanChange.MinorPlanChangeDetected: compares plans as values; nil and empty lists are one value here.
- TierPass.Pass.Visit: messages are kept as present or absent, because their text steers nothing; that the condition
  of a machine is updated is an outcome of the pass, or an error, and the condition is not written back.
- PlanSecret.Handler.OnChange: does not model the etcd snapshot list and the machine's plan-applied condition, which no
  other part of the model reads.
- MachineDrain.Handler.OnChange: one step is atomic towards the other parties; its own calls and its two updates may
  each fail.
- Handshake.AlwaysConsistent: a hook may only set its own annotation, and only once its request is announced; a hook
  that is named like an annotation of the handshake is excluded by the way annotations are modelled.
- Convergence.ThreePassesPerMachine: the desired plans stay the same during the run; it counts the passes that can move,
  and says nothing about how long agents, drains and hooks take before one can.
- ClusterBudget.TierBudget: no operation is under way in the passes of the run, because the operations give plans to
  machines without a budget; and the watched machines keep their roles and have plans already.
- CertificateRuns.RotationIsAWave: a rotation is under way in the passes of the run, no other operation writes plans in
  them, and the rotation plans and the machines that they are for stay the same.
- RestoreBarrier.OthersKeepPlans: the roster, the snapshot found and the label of the fixed init node stay the same in
  the window, and nobody but the planner writes plans.
- KeyRotation.RunCommand: reading the stage from a command's output is a given function, and so is whether a release
  supports the rotation.
- KeyRotation.RotateEncryptionKeys: with a generation of zero or less in the spec and none on record, the original
  dereferences a missing record; a pass that crashes is modelled as one that ends with an error, since neither persists
  anything.
- ArgProbe.RenderArgAndMount: the directory of a path is a given function, and list elements are strings already.
- SnapshotRestore.RunServiceStop: force-deleting etcd machines is reduced to whether its calls succeed.
- The content of plans is opaque but for files, instructions with their environment, periodic instructions, probes and
  the error; what desiredPlan and the other generators produce is an arbitrary function, which may fail.
- JSON, compression and base64 are a lossless codec, the plan hash is injective, the checksum of a machine's UID is an
  arbitrary 32-bit number, and a percentage is an exact rational.
- Environment entries and arguments are split at the first equals sign without trimming.
- Join URLs and joined-to servers are not discovered while a plan is loaded; they are part of the given annotations.
- A pass, a controller step and a store operation are atomic, and conflicts and stale caches are not modelled; a call to
  the API server or to a downstream cluster succeeds or fails as a parameter says.
- Logging, timestamps, condition reasons, re-enqueue delays, locks, watches and the generated clients.
- Machine provisioning, dynamic schemas, the managed system agent, unmanaged machines, bootstrap, etcd safe removal, the
  configuration server and the install scripts.
