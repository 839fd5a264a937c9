/** The planner's side of the drain handshake: requesting a drain or an uncordon through annotations. */
module PlannerDrain {
  import opened Model
  import PlanChange

  const SERVICE_UNREACHABLE := "error trying to reach service"

  predicate Contains(s: string, sub: string) {
    sub <= s || (s != "" && Contains(s[1..], sub))
  }

  ghost predicate Within(before: string, sub: string, after: string, s: string) {
    s == before + sub + after
  }

  lemma Prefix(sub: string, after: string)
    ensures sub <= "" + sub + after
  {
    assert "" + sub + after == sub + after;
  }

  lemma {:induction false} ContainsMeans(s: string, sub: string)
    ensures Contains(s, sub) <==> exists before, after :: Within(before, sub, after, s)
  {
    if sub <= s {
      assert Within("", sub, s[|sub|..], s);
    } else if s != "" {
      ContainsMeans(s[1..], sub);
      WithinTail(s, sub);
    } else {
      assert forall before, after :: Within(before, sub, after, s) ==> |sub| == 0;
    }
  }

  lemma WithinTail(s: string, sub: string)
    requires s != "" && !(sub <= s)
    ensures (exists before, after :: Within(before, sub, after, s)) <==>
            (exists before, after :: Within(before, sub, after, s[1..]))
  {
    if before, after :| Within(before, sub, after, s[1..]) {
      assert Within([s[0]] + before, sub, after, s);
    }
    if before, after :| Within(before, sub, after, s) {
      Prefix(sub, after);
      assert s[1..] == before[1..] + sub + after;
      assert Within(before[1..], sub, after, s[1..]);
    }
  }

  /** checkForDrainError: an error is reported, and not one that is expected while a node restarts. */
  predicate DrainErrorReported(a: Annotations) {
    a.drainError.Some? && a.drainError.value != "" && !Contains(a.drainError.value, SERVICE_UNREACHABLE)
  }

  /** An error is passed over exactly when it is empty or says somewhere that a service cannot be reached. */
  lemma ReportedMeans(a: Annotations)
    ensures DrainErrorReported(a) <==>
      && a.drainError.Some? && a.drainError.value != ""
      && !exists before, after :: Within(before, "error trying to reach service", after, a.drainError.value)
  {
    if a.drainError.Some? { ContainsMeans(a.drainError.value, SERVICE_UNREACHABLE); }
  }

  /** What drain and undrain return: the annotations they leave, the answer, and whether there is an error. */
  datatype Answer = Answer(annotations: Annotations, ok: bool, failed: bool)

  /** The options as they are requested; on a single-machine cluster only the hooks run. */
  function Requested(options: DrainOptions, single: bool): Mark {
    Options(if single then options.(enabled := false) else options)
  }

  /** There is something to do for these options at all. */
  predicate Applies(options: DrainOptions, single: bool) {
    (options.enabled && !single) || options.preDrainHooks != [] || options.postDrainHooks != []
  }

  function Drain(a: Annotations, nodeRef: Option<string>, oldPlan: Option<NodePlan>, newPlan: NodePlan,
                 single: bool, options: DrainOptions): Answer {
    if nodeRef.None? then Answer(a, true, false)
    else if !Applies(options, single) then Answer(a, true, false)
    else if !PlanChange.ShouldDrain(oldPlan, newPlan) then Answer(a, true, false)
    else
      var request := Requested(options, single);
      if a.drain != request then Answer(a.(drain := request), false, false)
      else if DrainErrorReported(a) then Answer(a, true, true)
      else Answer(a, a.drainDone == request, false)
  }

  function Undrain(a: Annotations): Answer {
    if a.drain != Blank && a.drain != a.unCordon then Answer(a.(unCordon := a.drain), false, false)
    else if DrainErrorReported(a) then Answer(a, true, true)
    else Answer(a, a.unCordon == Blank, false)
  }

  predicate InDrain(a: Annotations) {
    a.preDrain != Blank || a.postDrain != Blank || a.drain != Blank || a.unCordon != Blank
  }
}
