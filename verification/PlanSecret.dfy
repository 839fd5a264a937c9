/** The plan-secret controller, which records as applied the plan that the agent reports having run. */
module PlanSecret {
  import opened Model
  import opened Store

  predicate HasData(s: Secret) {
    s.plan != Absent || s.appliedPlan != Absent || s.appliedChecksum != NoSum || s.failedChecksum != NoSum ||
    s.failureCount != Absent || s.maxFailures != Absent || s.failureThreshold != Absent ||
    s.probeStatuses != Absent || s.output != Absent || s.periodicOutput != Absent
  }

  /** Crashed: the handler dereferences the node without testing for a secret that has data but no plan. */
  datatype Outcome = Ignored | Refused | Crashed | Done(planApplied: bool)

  datatype Change = Change(secret: Secret, outcome: Outcome)

  function Promoted(s: Secret): Secret {
    if s.appliedChecksum == PlanHash(s.plan) then s.(appliedPlan := s.plan) else s
  }

  function ProbesMarked(s: Secret, now: string): Secret {
    if s.probeStatuses.Encoded? && AllHealthy(s.probeStatuses.value) && s.annotations.probesPassed == ""
    then s.(annotations := s.annotations.(probesPassed := now))
    else s
  }

  function Handled(s: Secret, now: string): Change {
    if !HasData(s) then Change(s, Ignored) else
    match SecretToNode(s)
    case Unreadable => Change(s, Refused)
    case NoNode => Change(s, Crashed)
    case Readable(_) => Change(ProbesMarked(Promoted(s), now), Done(s.failedChecksum != PlanHash(s.plan)))
  }

  /** The failure count or a part that the store parses before it looks for a plan does not decode. */
  predicate BadStatus(s: Secret) {
    || (CountsForPlan(s) && (s.failureCount.Malformed? || (s.failureCount.value > 0 && s.failureThreshold.Malformed?)))
    || s.probeStatuses.Malformed?
  }

  /** The handler crashes exactly on a secret that has some data, all of it readable, but no plan. */
  lemma CrashesExactly(s: Secret, now: string)
    ensures Handled(s, now).outcome == Crashed <==> HasData(s) && s.plan == Absent && !BadStatus(s)
    ensures Handled(s, now).outcome == Crashed ==> Handled(s, now).secret == s
  {
  }

  /** The secrets of the API server as the controller changes them. */
  class Handler {
    var secrets: map<string, Secret>

    constructor (secrets: map<string, Secret>)
      ensures this.secrets == secrets
    {
      this.secrets := secrets;
    }

    method OnChange(key: string, now: string) returns (outcome: Outcome)
      requires key in secrets
      modifies this
      ensures var change := Handled(old(secrets)[key], now);
        outcome == change.outcome && secrets == old(secrets)[key := change.secret]
    {
      var secret := secrets[key];
      assert secrets == secrets[key := secret];
      if !HasData(secret) {
        return Ignored;
      }
      var node := SecretToNode(secret);
      if node.Unreadable? {
        return Refused;
      }
      if node.NoNode? {
        return Crashed;
      }
      var plan := secret.plan;
      var secretChanged := false;
      if secret.appliedChecksum == PlanHash(plan) && plan != secret.appliedPlan {
        secret := secret.(appliedPlan := plan);
        secretChanged := true;
      }
      if secret.probeStatuses != Absent {
        if AllHealthy(secret.probeStatuses.value) && secret.annotations.probesPassed == "" {
          secret := secret.(annotations := secret.annotations.(probesPassed := now));
          secretChanged := true;
        }
      }
      if secretChanged {
        secrets := secrets[key := secret];
      }
      return Done(secret.failedChecksum != PlanHash(plan));
    }
  }
}
