/** Runs of the persisted control plane: planner passes, and anything that others do in between. */
module Runs {
  import opened Model
  import opened ControlPlane
  import opened Process
  import opened Exclusivity

  datatype Moment = Moment(cp: Object, cluster: Cluster)

  /** Between passes the spec, the labels, the cluster and every field of the status outside the phase machines may
      change at will. */
  datatype Event = Pass(w: World) | Around

  ghost predicate Step(a: Moment, e: Event, b: Moment) {
    match e
    case Pass(w) => var p := Persisted(a.cp, a.cluster, w); b == Moment(p.cp, p.cluster)
    case Around => SameProgress(a.cp.status, b.cp.status)
  }

  ghost predicate Run(ms: seq<Moment>, es: seq<Event>) {
    && |ms| == |es| + 1
    && forall i :: 0 <= i < |es| ==> Step(ms[i], es[i], ms[i + 1])
  }

  lemma RunPrefix(ms: seq<Moment>, es: seq<Event>)
    requires Run(ms, es) && es != []
    ensures Run(ms[..|es|], es[..|es| - 1]) && Step(ms[|es| - 1], es[|es| - 1], ms[|es|])
  {
    hide Step;
    var ms', es' := ms[..|es|], es[..|es| - 1];
    forall i | 0 <= i < |es'| ensures Step(ms'[i], es'[i], ms'[i + 1]) {
      assert ms'[i] == ms[i] && ms'[i + 1] == ms[i + 1] && es'[i] == es[i];
    }
    assert Step(ms[|es| - 1], es[|es| - 1], ms[|es| - 1 + 1]);
  }
}
