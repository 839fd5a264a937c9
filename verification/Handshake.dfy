/** Runs of the handshake for one machine, under both sides, hook acknowledgements and node registration. */
module Handshake {
  import opened Model
  import opened PlannerDrain
  import opened MachineDrain
  import PlanChange

  /** unclean: the node was uncordoned, the clean-up was lost, and no drain or clean-up has been recorded since.
      approved: the requested options for which at some moment every pre-drain hook carried the request. */
  datatype State = State(
    annotations: Annotations, nodeRef: Option<string>, node: NodeState, unclean: bool, approved: set<DrainOptions>)

  datatype Event =
    | PlannerDrains(oldPlan: Option<NodePlan>, newPlan: NodePlan, single: bool, options: DrainOptions)
    | PlannerUndrains
    | HandlerRuns(io: IO)
    | HookAnswers(hook: string)
    | NodeRegisters(name: string)

  ghost predicate Initial(d: State) {
    !InDrain(d.annotations) && d.annotations.drainDone == Blank && !d.unclean &&
    (d.nodeRef.Some? ==> d.nodeRef.value != "")
  }

  /** A hook may answer once its request is announced by the pre-drain or the post-drain annotation. */
  predicate Announced(a: Annotations) {
    a.drain != Blank && (a.preDrain == a.drain || a.postDrain == a.drain)
  }

  /** Every hook that has a name has answered with the request. */
  predicate Answered(a: Annotations, hooks: seq<string>, request: Mark) {
    forall i :: 0 <= i < |hooks| && hooks[i] != "" ==> hooks[i] in a.hooks && a.hooks[hooks[i]] == request
  }

  /** That is what the handler goes by. */
  lemma AnsweredIsAcknowledged(a: Annotations, hooks: seq<string>, request: Mark)
    ensures Answered(a, hooks, request) <==> Acknowledged(a, hooks, request)
  {
    if Answered(a, hooks, request) {
      forall h | h in hooks && h != "" ensures h in a.hooks && a.hooks[h] == request {
        var i :| 0 <= i < |hooks| && hooks[i] == h;
      }
    }
  }

  /** The handler step uncordons the node, whatever becomes of the annotations. */
  predicate Uncordons(d: State, io: IO) {
    var a := d.annotations;
    && a.drain.Options? && a.drainDone == a.drain && a.unCordon != Blank && Registered(d.nodeRef)
    && (a.drain.options.postDrainHooks == [] || a.postDrain == a.drain)
    && Answered(a, a.drain.options.postDrainHooks, a.drain)
    && io.client && io.unCordon
  }

  /** The node is uncordoned and the clean-up is lost: it is not saved, and the update that records the error does not
      carry it along either. */
  predicate Loses(d: State, e: Event) {
    && e.HandlerRuns? && Uncordons(d, e.io)
    && match e.io.write
       case Saved => false
       case Unread => true
       case Unsaved => !e.io.record || d.annotations.drainError == Some(e.io.message)
  }

  /** The handler step records a drain or a clean-up. */
  predicate Repairs(d: State, e: Event) {
    e.HandlerRuns? &&
    var after := Handle(d.annotations, d.nodeRef, d.node, e.io).annotations;
    after.drain == Blank || (after.drainDone != d.annotations.drainDone && after.drainDone != Blank)
  }

  function Approvals(a: Annotations): set<DrainOptions> {
    if a.drain.Options? && Answered(a, a.drain.options.preDrainHooks, a.drain) then {a.drain.options} else {}
  }

  function Next(d: State, e: Event): State {
    var d' := Moved(d, e);
    d'.(approved := d.approved + Approvals(d'.annotations))
  }

  function Moved(d: State, e: Event): State {
    match e
    case PlannerDrains(p, q, single, options) =>
      d.(annotations := PlannerDrain.Drain(d.annotations, d.nodeRef, p, q, single, options).annotations)
    case PlannerUndrains =>
      d.(annotations := PlannerDrain.Undrain(d.annotations).annotations)
    case HandlerRuns(io) =>
      var step := Handle(d.annotations, d.nodeRef, d.node, io);
      State(step.annotations, d.nodeRef, step.node, !Repairs(d, e) && (d.unclean || Loses(d, e)), d.approved)
    case HookAnswers(hook) =>
      if Announced(d.annotations)
      then d.(annotations := d.annotations.(hooks := d.annotations.hooks[hook := d.annotations.drain]))
      else d
    case NodeRegisters(name) =>
      if d.nodeRef.None? && name != "" then d.(nodeRef := Some(name)) else d
  }

  function After(d: State, es: seq<Event>): State
    decreases |es|
  {
    if es == [] then d else After(Next(d, es[0]), es[1..])
  }

  /** What the annotations say about each other and about the node. */
  ghost predicate Consistent(d: State) {
    var a := d.annotations;
    && !a.drain.Junk?
    && (a.drain != Blank ==> Registered(d.nodeRef))
    && (d.nodeRef.Some? ==> d.nodeRef.value != "")
    && (a.unCordon != Blank ==> a.drain != Blank)
    && (a.preDrain != Blank ==> a.drain != Blank)
    && (a.postDrain != Blank ==> a.unCordon != Blank)
    && (a.drainDone != Blank ==> a.drain != Blank && a.drainDone.Options?)
    && (a.drainDone != Blank && !d.unclean ==> Drained(d))
    && (a.drainDone != Blank ==> a.drainDone.options in d.approved)
    && (d.unclean ==> a.drainDone.Options? && a.drainDone.options !in d.node.evicted && !Guard(a))
  }

  /** The node is cordoned and was drained under the options that are recorded as done. */
  predicate Drained(d: State) {
    d.annotations.drainDone.Options? && d.node.cordoned &&
    (d.annotations.drainDone.options.enabled ==> d.annotations.drainDone.options in d.node.evicted)
  }

  /** No uncordon is requested, or its post-drain hooks have not even been announced. */
  predicate Guard(a: Annotations) {
    a.unCordon == Blank ||
    (a.drainDone.Options? && a.drainDone.options.postDrainHooks != [] && a.postDrain != a.drainDone)
  }

  lemma ConsistentNext(d: State, e: Event)
    requires Consistent(d)
    ensures Consistent(Next(d, e))
  {
    hide PlanChange.ShouldDrain, PlannerDrain.DrainErrorReported, PlannerDrain.Applies;
    match e
    case PlannerDrains(p, q, single, options) =>
    case PlannerUndrains =>
    case HandlerRuns(io) => ConsistentHandler(d, io);
    case HookAnswers(hook) =>
    case NodeRegisters(name) =>
  }

  predicate Draining(a: Annotations) {
    a.drain != Blank && a.drainDone != a.drain
  }

  lemma ConsistentHandler(d: State, io: IO)
    requires Consistent(d)
    ensures Consistent(Next(d, HandlerRuns(io)))
  {
    hide Consistent;
    if Draining(d.annotations) {
      ConsistentDrain(d, io);
    } else if d.annotations.unCordon != Blank {
      ConsistentUndrain(d, io);
    } else {
      ConsistentIdle(d, io);
    }
  }

  /** A drain step may cordon and drain the node and record the pre-drain or the drain-done mark, the latter only
      after the drain and the answers of its hooks. */
  lemma DrainEffect(d: State, io: IO)
    requires Draining(d.annotations) && d.annotations.drain.Options? && Registered(d.nodeRef)
    ensures var a, step := d.annotations, Handle(d.annotations, d.nodeRef, d.node, io);
      var a' := step.annotations;
      && a' == a.(preDrain := a'.preDrain, drainDone := a'.drainDone, drainError := a'.drainError)
      && (a'.preDrain == a.preDrain || a'.preDrain == a.drain)
      && (a'.drainDone == a.drainDone ||
          (a'.drainDone == a.drain && step.node.cordoned && Answered(a', a.drain.options.preDrainHooks, a.drain) &&
           (a.drain.options.enabled ==> a.drain.options in step.node.evicted)))
      && d.node.evicted <= step.node.evicted <= d.node.evicted + {a.drain.options}
      && (d.node.cordoned ==> step.node.cordoned)
  {
    var a, a' := d.annotations, Handle(d.annotations, d.nodeRef, d.node, io).annotations;
    AnsweredIsAcknowledged(a', a.drain.options.preDrainHooks, a.drain);
    SameAnswers(a, a', a.drain.options.preDrainHooks, a.drain);
    hide Acknowledged, Answered;
  }

  lemma SameAnswers(a: Annotations, b: Annotations, hooks: seq<string>, request: Mark)
    ensures b.hooks == a.hooks ==> (Acknowledged(b, hooks, request) <==> Acknowledged(a, hooks, request))
  {
  }

  lemma ConsistentDrain(d: State, io: IO)
    requires Consistent(d) && Draining(d.annotations)
    ensures Consistent(Next(d, HandlerRuns(io)))
  {
    hide Handle, Loses, Acknowledged;
    DrainEffect(d, io);
    NoUncordonYet(d, io);
  }

  lemma NoUncordonYet(d: State, io: IO)
    requires Draining(d.annotations)
    ensures !Loses(d, HandlerRuns(io))
  {
  }

  /** An uncordon step records the post-drain mark at most, or it uncordons the node; then the annotations are cleaned,
      unless the clean-up is lost. */
  lemma UndrainEffect(d: State, io: IO)
    requires !Draining(d.annotations) && d.annotations.unCordon != Blank && d.annotations.drain.Options?
    ensures var a, step := d.annotations, Handle(d.annotations, d.nodeRef, d.node, io);
      var a' := step.annotations;
      if Uncordons(d, io) then
        && step.node == NodeState(false, {})
        && if Loses(d, HandlerRuns(io)) then a' == a.(drainError := a'.drainError)
           else a' == Cleaned(a, a.drain.options).(drainError := a'.drainError)
      else
        && step.node == d.node && a' == a.(postDrain := a'.postDrain, drainError := a'.drainError)
        && (a'.postDrain == a.postDrain || a'.postDrain == a.drain)
  {
    var a := d.annotations;
    AnsweredIsAcknowledged(a, a.drain.options.postDrainHooks, a.drain);
    hide Acknowledged, Answered;
  }

  /** A step whose calls to the downstream cluster fail claims nothing: the node is not said to be cordoned, drained or
      uncordoned, nothing is recorded as done, and the error is not lost unless its own update fails. */
  lemma FailedCallsClaimNothing(d: State, io: IO)
    requires d.annotations.drain.Options? && Registered(d.nodeRef)
    ensures var a, step := d.annotations, Handle(d.annotations, d.nodeRef, d.node, io);
      var a', node' := step.annotations, step.node;
      && (!io.client ==> node' == d.node && a' == a.(drainError := a'.drainError, postDrain := a'.postDrain))
      && (!io.cordon ==> node'.cordoned == d.node.cordoned || node' == NodeState(false, {}))
      && (!io.cordon && Draining(a) ==> node' == d.node && a' == a.(drainError := a'.drainError))
      && (!io.evict && a.drain.options.enabled && Draining(a) ==>
            node'.evicted == d.node.evicted && a'.drainDone == a.drainDone)
      && (!io.unCordon && !Draining(a) ==> node' == d.node && a'.drain == a.drain && a'.unCordon == a.unCordon)
      && (step.failed && io.record && io.write == Saved ==> a'.drainError == Some(io.message))
  {
    hide Acknowledged;
  }

  lemma ConsistentUndrain(d: State, io: IO)
    requires Consistent(d) && !Draining(d.annotations) && d.annotations.unCordon != Blank
    ensures Consistent(Next(d, HandlerRuns(io)))
  {
    hide Handle, Acknowledged;
    UndrainEffect(d, io);
  }

  lemma ConsistentIdle(d: State, io: IO)
    requires Consistent(d) && !Draining(d.annotations) && d.annotations.unCordon == Blank
    ensures Consistent(Next(d, HandlerRuns(io)))
  {
    hide DrainNode, UndrainNode;
  }

  /** Every reachable state is consistent: drain-done names options the node was drained with and is cordoned under,
      uncordon and pre-drain imply drain, post-drain implies uncordon. */
  lemma {:induction false} AlwaysConsistent(d: State, es: seq<Event>)
    requires Initial(d) || Consistent(d)
    ensures Consistent(After(d, es))
    decreases |es|
  {
    assert Consistent(d);
    if es != [] {
      ConsistentNext(d, es[0]);
      AlwaysConsistent(Next(d, es[0]), es[1..]);
    }
  }

  /** When drain gives way to a plan for which draining applies, the request in force is recorded as done and its
      hooks have answered. For options with draining the node is drained under exactly these options if and only if no
      clean-up has been lost since; and under the guard, which the annotations show, it is drained and cordoned. */
  lemma DrainedBeforeUpdate(d: State, es: seq<Event>, p: Option<NodePlan>, q: NodePlan, single: bool,
                            options: DrainOptions)
    requires Initial(d)
    ensures var s := After(d, es);
      var answer := PlannerDrain.Drain(s.annotations, s.nodeRef, p, q, single, options);
      var request := Requested(options, single);
      (answer.ok && !answer.failed && s.nodeRef.Some? && Applies(options, single) && PlanChange.ShouldDrain(p, q)) ==>
        && answer.annotations == s.annotations
        && s.annotations.drain == s.annotations.drainDone == request
        && request.options in s.approved
        && (request.options.enabled ==> (request.options in s.node.evicted <==> !s.unclean))
        && (!s.unclean || Guard(s.annotations) ==> Drained(s))
  {
    AlwaysConsistent(d, es);
  }

  lemma {:induction false} AfterSnoc(d: State, es: seq<Event>)
    requires es != []
    ensures After(d, es) == Next(After(d, es[..|es| - 1]), es[|es| - 1])
    decreases |es|
  {
    hide Next;
    if |es| > 1 {
      assert es[1..][..|es| - 2] == es[..|es| - 1][1..];
      AfterSnoc(Next(d, es[0]), es[1..]);
    } else {
      AfterOne(d, es[0]);
    }
  }

  /** The i-th event of the run loses a clean-up, and no later one repairs it. */
  ghost predicate LostAt(d: State, es: seq<Event>, i: nat) {
    && i < |es| && Loses(After(d, es[..i]), es[i]) && !Repairs(After(d, es[..i]), es[i])
    && forall j :: i < j < |es| ==> !Repairs(After(d, es[..j]), es[j])
  }

  lemma LostLater(d: State, es: seq<Event>, i: nat)
    requires es != [] && i < |es| - 1
    ensures LostAt(d, es, i) <==>
      LostAt(d, es[..|es| - 1], i) && !Repairs(After(d, es[..|es| - 1]), es[|es| - 1])
  {
    hide After, Loses, Repairs;
    var n := |es| - 1;
    var before := es[..n];
    assert before[..i] == es[..i] && before[i] == es[i];
    assert forall j :: 0 <= j < n ==> before[..j] == es[..j] && before[j] == es[j];
  }

  lemma UncleanNext(d: State, e: Event)
    ensures Next(d, e).unclean <==> !Repairs(d, e) && (d.unclean || Loses(d, e))
  {
    hide Handle;
  }

  /** Over every run: the state is unclean exactly when some event lost a clean-up that no later one repaired. */
  lemma {:induction false} UncleanExactly(d: State, es: seq<Event>)
    requires !d.unclean
    ensures After(d, es).unclean <==> exists i: nat :: LostAt(d, es, i)
    decreases |es|
  {
    hide Loses, Repairs, Next;
    if es == [] {
      assert After(d, es) == d;
    } else {
      var n := |es| - 1;
      var before, last := After(d, es[..n]), es[n];
      AfterSnoc(d, es);
      UncleanExactly(d, es[..n]);
      UncleanNext(before, last);
      if After(d, es).unclean {
        if Loses(before, last) {
          assert LostAt(d, es, n);
        } else {
          var i: nat :| LostAt(d, es[..n], i);
          LostLater(d, es, i);
        }
      }
      if exists i: nat :: LostAt(d, es, i) {
        var i: nat :| LostAt(d, es, i);
        if i < n { LostLater(d, es, i); }
      }
    }
  }

  /** As long as every update of the annotations is saved, no clean-up is lost. */
  lemma SavedStaysClean(d: State, es: seq<Event>)
    requires !d.unclean
    requires forall i :: 0 <= i < |es| && es[i].HandlerRuns? ==> es[i].io.write == Saved
    ensures !After(d, es).unclean
  {
    hide After, Repairs, Uncordons;
    UncleanExactly(d, es);
  }

  const ALL_WELL := IO(true, true, true, true, Saved, true, "")

  /** Neither the annotations nor their copy could be saved. */
  const LOST := ALL_WELL.(write := Unsaved, record := false)

  lemma DrainedAtOnce(d: State, p: NodePlan, q: NodePlan, options: DrainOptions)
    requires Initial(d) && Registered(d.nodeRef) && options.enabled && options.preDrainHooks == []
    requires PlanChange.ShouldDrain(Some(p), q)
    ensures var s := Next(Next(d, PlannerDrains(Some(p), q, false, options)), HandlerRuns(ALL_WELL));
      && s.nodeRef == d.nodeRef && s.node.cordoned
      && s.annotations == d.annotations.(drain := Options(options), drainDone := Options(options))
  {
    hide PlanChange.ShouldDrain, Answered;
  }

  lemma UncordonLost(d: State, options: DrainOptions)
    requires d.annotations.drain == d.annotations.drainDone == Options(options) && options.postDrainHooks == []
    requires d.annotations.unCordon == Blank && Registered(d.nodeRef)
    ensures var s := Next(Next(d, PlannerUndrains), HandlerRuns(LOST));
      && s.nodeRef == d.nodeRef && s.unclean && s.node == NodeState(false, {})
      && s.annotations == d.annotations.(unCordon := Options(options))
  {
    var d' := Next(d, PlannerUndrains);
    assert Uncordons(d', LOST);
    hide Answered, DrainErrorReported;
  }

  /** The exception is real: when neither the clean-up nor its error can be saved, the same options let an update
      through to an uncordoned node. */
  lemma LostCleanupUpdatesUncordonedNode(d: State, p: NodePlan, q: NodePlan, options: DrainOptions)
    requires Initial(d) && Registered(d.nodeRef) && !DrainErrorReported(d.annotations)
    requires options.enabled && options.preDrainHooks == [] && options.postDrainHooks == []
    requires PlanChange.ShouldDrain(Some(p), q)
    ensures var events := [PlannerDrains(Some(p), q, false, options), HandlerRuns(ALL_WELL), PlannerUndrains,
                           HandlerRuns(LOST)];
      var s := After(d, events);
      var answer := PlannerDrain.Drain(s.annotations, s.nodeRef, Some(p), q, false, options);
      s.unclean && !s.node.cordoned && options !in s.node.evicted && answer.ok && !answer.failed
  {
    hide Next, DrainErrorReported, PlanChange.ShouldDrain;
    var e0, e1, e2, e3 :=
      PlannerDrains(Some(p), q, false, options), HandlerRuns(ALL_WELL), PlannerUndrains, HandlerRuns(LOST);
    var d2 := Next(Next(d, e0), e1);
    assert [e0, e1, e2, e3] == [e0, e1] + [e2, e3];
    AfterConcat(d, [e0, e1], [e2, e3]);
    AfterTwo(d, e0, e1);
    AfterTwo(d2, e2, e3);
    DrainedAtOnce(d, p, q, options);
    UncordonLost(d2, options);
    SameError(d.annotations, After(d, [e0, e1, e2, e3]).annotations);
  }

  lemma SameError(a: Annotations, b: Annotations)
    ensures a.drainError == b.drainError ==> (DrainErrorReported(a) <==> DrainErrorReported(b))
  {
    hide PlannerDrain.Contains;
  }

  ghost predicate Reachable(d: State) {
    exists s, es :: Initial(s) && d == After(s, es)
  }

  lemma ReachableNext(d: State, e: Event)
    requires Reachable(d)
    ensures Reachable(Next(d, e))
  {
    hide Next;
    var s, es :| Initial(s) && d == After(s, es);
    AfterConcat(s, es, [e]);
    AfterOne(d, e);
  }

  lemma ReachableConsistent(d: State)
    requires Reachable(d)
    ensures Consistent(d)
  {
    hide Consistent;
    var s, es :| Initial(s) && d == After(s, es);
    AlwaysConsistent(s, es);
  }

  /** The post-drain hooks of the drain that is recorded as done have answered, if it has any. */
  predicate HooksAnswered(a: Annotations) {
    && a.drain.Options? && a.drainDone == a.drain
    && (a.drain.options.postDrainHooks == [] || a.postDrain == a.drain)
    && Answered(a, a.drain.options.postDrainHooks, a.drain)
  }

  /** What the annotations can tell is exactly the guard: among the annotations whose post-drain hooks have answered,
      those that guarantee a drained node are the ones without a requested uncordon. */
  lemma GuardIsExact(d: State)
    requires Reachable(d) && HooksAnswered(d.annotations)
    ensures (forall s :: Reachable(s) && s.annotations == d.annotations ==> Drained(s)) <==>
      d.annotations.unCordon == Blank
  {
    hide Consistent;
    if d.annotations.unCordon == Blank {
      forall s | Reachable(s) && s.annotations == d.annotations ensures Drained(s) {
        ReachableConsistent(s);
        GuardedIsDrained(s);
      }
    } else {
      ReachableConsistent(d);
      var lost := HandlerRuns(LOST.(write := Unread));
      LostKeepsAnnotations(d);
      ReachableNext(d, lost);
      assert !Drained(Next(d, lost));
    }
  }

  lemma GuardedIsDrained(d: State)
    requires Consistent(d) && Guard(d.annotations) && d.annotations.drainDone != Blank
    ensures Drained(d)
  {
  }

  lemma LostKeepsAnnotations(d: State)
    requires Consistent(d) && HooksAnswered(d.annotations) && d.annotations.unCordon != Blank
    ensures var s := Next(d, HandlerRuns(LOST.(write := Unread)));
      s.annotations == d.annotations && !s.node.cordoned
  {
  }

  /** An uncordon request that is still pending when an update with the same options goes out is carried out all the
      same: the next handler step uncordons the node and clears the handshake. */
  lemma PendingUncordonOvertakesUpdate(d: State, p: NodePlan, q: NodePlan, options: DrainOptions)
    requires Consistent(d) && options.enabled && options.preDrainHooks == [] && options.postDrainHooks == []
    requires d.annotations.drain == d.annotations.drainDone == d.annotations.unCordon == Options(options)
    requires d.annotations.drainError == None && PlanChange.ShouldDrain(Some(p), q)
    ensures var answer := PlannerDrain.Drain(d.annotations, d.nodeRef, Some(p), q, false, options);
      answer.ok && !answer.failed && answer.annotations == d.annotations
    ensures var s := Next(d, HandlerRuns(ALL_WELL));
      !s.node.cordoned && !InDrain(s.annotations) && s.annotations.drainDone == Blank
  {
  }

  // ---------------------------------------------------------------- the round trip

  /** Answers of the given hooks, one event each. */
  function Answers(hooks: seq<string>): seq<Event> {
    if hooks == [] then [] else [HookAnswers(hooks[0])] + Answers(hooks[1..])
  }

  lemma {:induction false} AfterConcat(d: State, es: seq<Event>, fs: seq<Event>)
    ensures After(d, es + fs) == After(After(d, es), fs)
    decreases |es|
  {
    if es == [] {
      assert es + fs == fs;
    } else {
      assert (es + fs)[1..] == es[1..] + fs;
      AfterConcat(Next(d, es[0]), es[1..], fs);
    }
  }

  lemma AnswerStep(d: State, hook: string)
    requires Announced(d.annotations)
    ensures var d' := Next(d, HookAnswers(hook));
      && Announced(d'.annotations)
      && d' == d.(annotations := d.annotations.(hooks := d.annotations.hooks[hook := d.annotations.drain]),
                  approved := d'.approved)
  {
    hide Approvals;
  }

  lemma {:induction false} AfterAnswers(d: State, hooks: seq<string>)
    requires Announced(d.annotations)
    ensures var s := After(d, Answers(hooks));
      && s == d.(annotations := d.annotations.(hooks := s.annotations.hooks), approved := s.approved)
      && s.annotations.hooks.Keys == d.annotations.hooks.Keys + (set h | h in hooks)
      && (forall h :: h in hooks ==> s.annotations.hooks[h] == d.annotations.drain)
      && (forall h :: h in d.annotations.hooks && h !in hooks ==> s.annotations.hooks[h] == d.annotations.hooks[h])
    decreases |hooks|
  {
    hide Approvals, Next, Announced;
    if hooks != [] {
      var hook, rest := hooks[0], hooks[1..];
      var d' := Next(d, HookAnswers(hook));
      assert Answers(hooks)[1..] == Answers(rest);
      AnswerStep(d, hook);
      AfterAnswers(d', rest);
      assert After(d, Answers(hooks)) == After(d', Answers(rest));
      HookSets(hooks);
      hide After;
    }
  }

  lemma HookSets(hooks: seq<string>)
    requires hooks != []
    ensures (set h | h in hooks) == {hooks[0]} + (set h | h in hooks[1..])
    ensures forall h :: h in hooks <==> h == hooks[0] || h in hooks[1..]
  {
    assert hooks == [hooks[0]] + hooks[1..];
  }

  /** The events of one undisturbed drain and uncordon, with the hooks that the options name. */
  function DrainEvents(p: NodePlan, q: NodePlan, options: DrainOptions): seq<Event> {
    [PlannerDrains(Some(p), q, false, options), HandlerRuns(ALL_WELL)] +
    (if options.preDrainHooks == [] then [] else Answers(options.preDrainHooks) + [HandlerRuns(ALL_WELL)])
  }

  function UncordonEvents(options: DrainOptions): seq<Event> {
    [PlannerUndrains, HandlerRuns(ALL_WELL)] +
    (if options.postDrainHooks == [] then [] else Answers(options.postDrainHooks) + [HandlerRuns(ALL_WELL)])
  }

  predicate NewHooks(a: Annotations, options: DrainOptions) {
    forall h :: h in a.hooks ==> h !in options.preDrainHooks && h !in options.postDrainHooks
  }

  lemma AfterOne(d: State, e: Event)
    ensures After(d, [e]) == Next(d, e)
  {
    assert [e][1..] == [];
  }

  lemma AfterTwo(d: State, e: Event, f: Event)
    ensures After(d, [e, f]) == Next(Next(d, e), f)
  {
    assert [e, f][1..] == [f];
    AfterOne(Next(d, e), f);
  }

  lemma DrainCompletes(d: State, p: NodePlan, q: NodePlan, options: DrainOptions)
    requires Initial(d) && Registered(d.nodeRef) && NewHooks(d.annotations, options)
    requires Applies(options, false) && PlanChange.ShouldDrain(Some(p), q)
    ensures var s := After(d, DrainEvents(p, q, options));
      && s.nodeRef == d.nodeRef && s.node.cordoned && !s.unclean
      && (options.enabled ==> options in s.node.evicted)
      && s.annotations == d.annotations.(drain := Options(options), drainDone := Options(options),
           preDrain := s.annotations.preDrain, hooks := s.annotations.hooks)
      && s.annotations.hooks.Keys == d.annotations.hooks.Keys + (set h | h in options.preDrainHooks)
      && (forall h :: h in d.annotations.hooks ==> s.annotations.hooks[h] == d.annotations.hooks[h])
  {
    var e, h := PlannerDrains(Some(p), q, false, options), HandlerRuns(ALL_WELL);
    var d2 := Next(Next(d, e), h);
    AfterTwo(d, e, h);
    if options.preDrainHooks != [] {
      var answers := Answers(options.preDrainHooks);
      AfterConcat(d, [e, h], answers + [h]);
      AfterConcat(d2, answers, [h]);
      AfterAnswers(d2, options.preDrainHooks);
      var d3 := After(d2, answers);
      AfterOne(d3, h);
      assert Acknowledged(d3.annotations, options.preDrainHooks, Options(options));
    } else {
      assert [e, h] + [] == [e, h];
      assert d2.annotations.hooks == d.annotations.hooks;
    }
  }

  /** The last handler step: all post-drain hooks have answered. */
  lemma CleanupStep(d: State, options: DrainOptions)
    requires d.annotations.drain == d.annotations.drainDone == Options(options) && d.annotations.unCordon != Blank
    requires options.postDrainHooks != [] ==> d.annotations.postDrain == Options(options)
    requires Acknowledged(d.annotations, options.postDrainHooks, Options(options))
    requires Registered(d.nodeRef)
    ensures var s := Next(d, HandlerRuns(ALL_WELL));
      && s.nodeRef == d.nodeRef && s.node == NodeState(false, {}) && !s.unclean
      && s.annotations == Cleaned(d.annotations, options)
  {
  }

  lemma CleanupAfterAnswers(d: State, options: DrainOptions)
    requires d.annotations.drain == d.annotations.drainDone == Options(options) && d.annotations.unCordon != Blank
    requires d.annotations.postDrain == Options(options) && Registered(d.nodeRef)
    ensures var s := After(d, Answers(options.postDrainHooks) + [HandlerRuns(ALL_WELL)]);
      && s.nodeRef == d.nodeRef && s.node == NodeState(false, {}) && !s.unclean
      && s.annotations == Cleaned(d.annotations, options)
  {
    hide Next, Handle, InDrain;
    var h, answers := HandlerRuns(ALL_WELL), Answers(options.postDrainHooks);
    AfterConcat(d, answers, [h]);
    AfterAnswers(d, options.postDrainHooks);
    var d4 := After(d, answers);
    AfterOne(d4, h);
    CleanupStep(d4, options);
    var pre, post := set x | x in options.preDrainHooks, set x | x in options.postDrainHooks;
    assert d4.annotations.hooks - pre - post == d.annotations.hooks - pre - post;
  }

  lemma UncordonCompletes(d: State, options: DrainOptions)
    requires d.annotations.drain == d.annotations.drainDone == Options(options)
    requires d.annotations.unCordon == d.annotations.postDrain == Blank
    requires Registered(d.nodeRef)
    ensures var s := After(d, UncordonEvents(options));
      && s.nodeRef == d.nodeRef && s.node == NodeState(false, {}) && !s.unclean
      && s.annotations == Cleaned(d.annotations, options)
  {
    var h := HandlerRuns(ALL_WELL);
    var d2 := Next(d, PlannerUndrains);
    AfterTwo(d, PlannerUndrains, h);
    assert d2.annotations == d.annotations.(unCordon := Options(options));
    if options.postDrainHooks != [] {
      var d3 := Next(d2, h);
      assert d3.annotations == d2.annotations.(postDrain := Options(options));
      AfterConcat(d, [PlannerUndrains, h], Answers(options.postDrainHooks) + [h]);
      CleanupAfterAnswers(d3, options);
    } else {
      assert [PlannerUndrains, h] + [] == [PlannerUndrains, h];
      CleanupStep(d2, options);
    }
  }

  /** A drain followed by an uncordon, each carried through with its hooks, leaves no trace in the annotations and the
      node uncordoned. */
  lemma RoundTrip(d: State, p: NodePlan, q: NodePlan, options: DrainOptions)
    requires Initial(d) && Registered(d.nodeRef) && NewHooks(d.annotations, options)
    requires Applies(options, false) && PlanChange.ShouldDrain(Some(p), q)
    ensures var s := After(d, DrainEvents(p, q, options) + UncordonEvents(options));
      && s.annotations == d.annotations
      && s.nodeRef == d.nodeRef && s.node == NodeState(false, {}) && !s.unclean
  {
    DrainCompletes(d, p, q, options);
    AfterConcat(d, DrainEvents(p, q, options), UncordonEvents(options));
    var d1 := After(d, DrainEvents(p, q, options));
    UncordonCompletes(d1, options);
    var pre, post := set x | x in options.preDrainHooks, set x | x in options.postDrainHooks;
    assert d1.annotations.hooks - pre - post == d.annotations.hooks;
  }
}
