/** Entries of a cluster plan, the role filters over them and collect, the sorted selection every stage starts from. */
module PlanEntry {
  import opened Model
  import Names

  /** A role filter, as a value: the basic tests and the three combinators. */
  datatype Filter =
    | Etcd | ControlPlane | Worker | Windows | InitNode
    | Deleting | Failed | InfrastructureReady
    | HasJoinURL | HasJoinedTo | HasPlan
    | HasNodeRef | MachineReady | Named(name: string) | MachineId(id: string) | LabelledId(id: string)
    | And(left: Filter, right: Filter)
    | Or(left: Filter, right: Filter)
    | Not(inner: Filter)

  /** Whether the entry of machine m passes the filter. A machine without a secret has no metadata, hence no role. */
  predicate Matches(c: Cluster, f: Filter, m: string)
    decreases f
  {
    match f
    case Etcd => m in c.secrets && c.secrets[m].labels.etcd
    case ControlPlane => m in c.secrets && c.secrets[m].labels.controlPlane
    case Worker => m in c.secrets && c.secrets[m].labels.worker
    case Windows => m in c.secrets && c.secrets[m].labels.windows
    case InitNode => m in c.secrets && c.secrets[m].labels.initNode == "true"
    case Deleting => m in c.machines && c.machines[m].deleting
    case Failed => m in c.machines && c.machines[m].failed
    case InfrastructureReady => m in c.machines && c.machines[m].infrastructureReady
    case HasJoinURL => m in c.secrets && c.secrets[m].annotations.joinURL != ""
    case HasJoinedTo => m in c.secrets && c.secrets[m].annotations.joinedTo != ""
    case HasPlan => m in c.nodes
    case HasNodeRef => m in c.machines && c.machines[m].nodeRef.Some?
    case MachineReady => m in c.machines && c.machines[m].ready
    case Named(name) => m == name
    case MachineId(id) => m in c.machines && c.machines[m].machineId == id
    case LabelledId(id) => m in c.secrets && c.secrets[m].labels.machineId == id
    case And(l, r) => Matches(c, l, m) && Matches(c, r, m)
    case Or(l, r) => Matches(c, l, m) || Matches(c, r, m)
    case Not(g) => !Matches(c, g, m)
  }

  lemma NotMeans(c: Cluster, f: Filter, m: string)
    ensures Matches(c, Not(f), m) <==> !Matches(c, f, m)
  {
  }

  lemma AndMeans(c: Cluster, f: Filter, g: Filter, m: string)
    ensures Matches(c, And(f, g), m) <==> Matches(c, f, m) && Matches(c, g, m)
  {
  }

  lemma OrMeans(c: Cluster, f: Filter, g: Filter, m: string)
    ensures Matches(c, Or(f, g), m) <==> Matches(c, f, m) || Matches(c, g, m)
  {
  }

  const IS_INIT_NODE_OR_DELETING := Or(InitNode, Deleting)
  const IS_NOT_INIT_NODE_OR_IS_DELETING := Or(Not(InitNode), Deleting)
  const IS_ONLY_ETCD := And(Etcd, Not(ControlPlane))
  const IS_CONTROL_PLANE_AND_ETCD := And(ControlPlane, Etcd)
  const IS_ONLY_CONTROL_PLANE := And(Not(Etcd), ControlPlane)
  const IS_ONLY_WORKER := And(And(Not(Etcd), Not(ControlPlane)), Worker)
  const ANY_ROLE := Or(Etcd, Or(ControlPlane, Worker))
  const ANY_ROLE_WITHOUT_WINDOWS := And(ANY_ROLE, Not(Windows))
  const CAN_BE_INIT_NODE := And(And(Etcd, Not(Deleting)), And(Not(Failed), InfrastructureReady))
  const JOINABLE_CONTROL_PLANE := And(ControlPlane, And(HasJoinURL, Not(Deleting)))
  const NOT_DELETING_AND_CONTROL_PLANE_OR_INIT_NODE := And(Not(Deleting), Or(ControlPlane, InitNode))

  ghost function Selected(c: Cluster, filter: Filter): set<string> {
    set m | m in c.machines && Matches(c, filter, m)
  }

  /** What collect returns: the selected machines in name order. */
  ghost function Collected(c: Cluster, filter: Filter): (r: seq<string>)
    ensures Names.Sorted(r) && Names.NoDuplicates(r)
    ensures forall m :: m in r <==> m in c.machines && Matches(c, filter, m)
  {
    var r := Names.InOrder(Selected(c, filter));
    Names.SortedHasNoDuplicates(r);
    assert forall m :: m in r <==> m in Names.Elements(r);
    r
  }

  /** collect walks the machine map in any order and then sorts. */
  method Collect(c: Cluster, filter: Filter) returns (r: seq<string>)
    ensures r == Collected(c, filter)
  {
    var left := c.machines.Keys;
    var found: seq<string> := [];
    while left != {}
      invariant left <= c.machines.Keys
      invariant Names.NoDuplicates(found)
      invariant forall m :: m in found <==> m in c.machines && m !in left && Matches(c, filter, m)
      decreases |left|
    {
      var m :| m in left;
      left := left - {m};
      if Matches(c, filter, m) {
        found := found + [m];
      }
    }
    assert Names.Elements(found) == Selected(c, filter);
    r := Names.Sort(found);
  }

  /** Whatever listing of the selected machines is sorted by name is the one collect returns. */
  lemma CollectedUnique(c: Cluster, filter: Filter, xs: seq<string>)
    requires Names.Sorted(xs)
    requires forall m :: m in xs <==> m in c.machines && Matches(c, filter, m)
    ensures xs == Collected(c, filter)
  {
    assert Names.Elements(xs) == Names.Elements(Collected(c, filter));
    Names.SortedUnique(xs, Collected(c, filter));
  }

  /** The first machine collect returns is the least selected one, and there is one unless nothing is selected. */
  lemma CollectedHead(c: Cluster, filter: Filter)
    ensures Collected(c, filter) == [] <==> (forall m :: m in c.machines ==> !Matches(c, filter, m))
    ensures Collected(c, filter) != [] ==>
      forall m :: m in c.machines && Matches(c, filter, m) ==>
        m == Collected(c, filter)[0] || Names.Less(Collected(c, filter)[0], m)
  {
    var r := Collected(c, filter);
    if r == [] {
      forall m | m in c.machines ensures !Matches(c, filter, m) {
        assert m !in r;
      }
    } else {
      assert r[0] in r;
      forall m | m in c.machines && Matches(c, filter, m) ensures m == r[0] || Names.Less(r[0], m) {
        assert m in r;
      }
    }
  }

  /** m is not deleting, is a control-plane or init node, and has this join URL. */
  predicate Offers(c: Cluster, m: string, joinURL: string) {
    && Matches(c, NOT_DELETING_AND_CONTROL_PLANE_OR_INIT_NODE, m)
    && m in c.secrets && c.secrets[m].annotations.joinURL == joinURL
  }

  lemma JoinableMeans(c: Cluster, m: string)
    ensures Matches(c, JOINABLE_CONTROL_PLANE, m) <==>
      && m in c.secrets && c.secrets[m].labels.controlPlane && c.secrets[m].annotations.joinURL != ""
      && !(m in c.machines && c.machines[m].deleting)
  {
    AndMeans(c, HasJoinURL, Not(Deleting), m);
    NotMeans(c, Deleting, m);
    AndMeans(c, ControlPlane, And(HasJoinURL, Not(Deleting)), m);
  }

  lemma OffersMeans(c: Cluster, m: string, joinURL: string)
    ensures Offers(c, m, joinURL) <==>
      && m in c.secrets && c.secrets[m].annotations.joinURL == joinURL
      && (c.secrets[m].labels.controlPlane || c.secrets[m].labels.initNode == "true")
      && !(m in c.machines && c.machines[m].deleting)
  {
    OrMeans(c, ControlPlane, InitNode, m);
    NotMeans(c, Deleting, m);
    AndMeans(c, Not(Deleting), Or(ControlPlane, InitNode), m);
  }

  /** collectAndValidateAnnotationValue, for the join-url annotation: some machine of the cluster offers the URL. */
  ghost predicate ValidJoinURL(c: Cluster, joinURL: string) {
    exists m :: m in c.machines && Offers(c, m, joinURL)
  }
}
