/** When an election is at rest, and which parts of the cluster that depends on. */
module Roster {
  import opened Model
  import opened PlanEntry
  import opened Store
  import opened InitNode
  import opened InitNodeRuns
  import opened ControlPlane
  import opened SnapshotRestore
  import Names

  // ---------------------------------------------------------------- the roster

  predicate SameMachine(a: Machine, b: Machine) {
    && a.machineId == b.machineId && a.deleting == b.deleting && a.failed == b.failed
    && a.infrastructureReady == b.infrastructureReady
  }

  /** The same machines, in the same condition, with the same roles and join URLs; marks may differ. */
  ghost predicate SameRoles(c: Cluster, c': Cluster) {
    && c'.machines.Keys == c.machines.Keys && c'.secrets.Keys == c.secrets.Keys
    && (forall m :: m in c.machines ==> SameMachine(c.machines[m], c'.machines[m]))
    && (forall m :: m in c.secrets ==>
          && c'.secrets[m].labels == c.secrets[m].labels.(initNode := c'.secrets[m].labels.initNode)
          && c'.secrets[m].annotations.joinURL == c.secrets[m].annotations.joinURL)
  }

  /** The same roster, including the marks. */
  ghost predicate SameRoster(c: Cluster, c': Cluster) {
    SameRoles(c, c') && forall m :: m in c.secrets ==> c'.secrets[m].labels.initNode == c.secrets[m].labels.initNode
  }

  lemma RosterTransitive(a: Cluster, b: Cluster, c: Cluster)
    ensures SameRoles(a, b) && SameRoles(b, c) ==> SameRoles(a, c)
    ensures SameRoster(a, b) && SameRoster(b, c) ==> SameRoster(a, c)
  {
  }

  lemma RelabelledRoles(c: Cluster, c': Cluster)
    requires Relabelled(c, c')
    ensures SameRoles(c, c')
  {
    forall m | m in c.secrets ensures c'.secrets[m] == WithMark(c.secrets[m], c'.secrets[m].labels.initNode) {
      assert SameButMark(c.secrets[m], c'.secrets[m]);
    }
  }

  /** What the election looks at is part of the roster. */
  lemma RosterMatches(c: Cluster, c': Cluster, m: string)
    requires SameRoster(c, c')
    ensures MarkOf(c', m) == MarkOf(c, m) && URLOf(c', m) == URLOf(c, m)
    ensures Candidate(c', m) <==> Candidate(c, m)
    ensures forall id :: (HasId(c', m, id) <==> HasId(c, m, id))
    ensures forall id :: (Matches(c', LabelledId(id), m) <==> Matches(c, LabelledId(id), m))
    ensures Matches(c', Etcd, m) <==> Matches(c, Etcd, m)
  {
    CandidateMeans(c, m);
    CandidateMeans(c', m);
  }

  lemma RosterMarks(c: Cluster, c': Cluster)
    requires SameRoster(c, c')
    ensures Marks(c') == Marks(c)
  {
    hide Matches, Marks;
    MarksAre(c);
    MarksAre(c');
    assert forall m :: m in c.machines <==> m in c'.machines;
    forall m ensures m in Marks(c') <==> m in Marks(c) {
    }
  }

  // ---------------------------------------------------------------- at rest

  /** The init node is found without an error. */
  ghost predicate FoundRests(c: Cluster, fixed: string) {
    if fixed != "" then exists m :: Collected(c, LabelledId(fixed)) == [m] && MarkOf(c, m) == "true"
    else exists m :: Marks(c) == {m} && Candidate(c, m) && (BetterExists(c) ==> URLOf(c, m) != "")
  }

  lemma FixedNil(c: Cluster, fixed: string)
    requires fixed != ""
    ensures FoundInitNode(c, fixed).err == Nil <==> FoundRests(c, fixed)
  {
    hide Matches, ClearedMarks, SecretToNode, SameButMark, Loaded;
    var labelled := Collected(c, LabelledId(fixed));
    if |labelled| == 1 {
      assert labelled == [labelled[0]];
      assert labelled[0] in labelled;
      EtcdHaveSecrets(c, LabelledId(fixed));
      EtcdHaveSecrets(c, Etcd);
      ClearedMeans(Start(c), Collected(c, Etcd), Some(fixed));
      MarkOne(ClearedMarks(Start(c), Collected(c, Etcd), Some(fixed)).cluster, labelled[0], "true");
    }
  }

  lemma MarkedNil(c: Cluster)
    ensures FoundInitNode(c, "").err == Nil <==> FoundRests(c, "")
  {
    hide Matches;
    var current := Collected(c, PlanEntry.InitNode);
    assert forall x :: x in current <==> x in Marks(c);
    if |current| == 1 {
      assert current == [current[0]];
      assert Marks(c) == {current[0]};
    }
    if exists m :: Marks(c) == {m} {
      var m :| Marks(c) == {m};
      assert m in current;
      Names.Singleton(current, m);
    }
  }

  lemma FoundNil(c: Cluster, fixed: string)
    ensures FoundInitNode(c, fixed).err == Nil <==> FoundRests(c, fixed)
  {
    hide FoundInitNode, FoundRests;
    if fixed == "" { MarkedNil(c); } else { FixedNil(c, fixed); }
  }

  /** An election answers nil exactly when the init node is found without an error. */
  lemma ElectedNil(c: Cluster, fixed: string)
    ensures Elected(c, fixed, true).err == Nil <==> FoundRests(c, fixed)
  {
    hide Matches, SecretToNode, FoundInitNode, ClearedMarks, SameButMark, Loaded, FoundRests, SetMark;
    FoundNil(c, fixed);
    FoundRelabels(c, fixed);
    var f := FoundInitNode(c, fixed);
    EtcdHaveSecrets(f.cluster, PlanEntry.InitNode);
    ElectionSweep(f.cluster);
    var sweep := ClearedMarks(Start(f.cluster), Collected(f.cluster, PlanEntry.InitNode), None);
    if sweep.err == Nil && !sweep.changed { VoteNeverNil(sweep.cluster); }
  }

  /** Without any mark, the vote sets one, or waits. */
  lemma VoteNeverNil(c: Cluster)
    requires !AnyMark(c)
    ensures Vote(c).err != Nil
  {
    hide SecretToNode, SameButMark, Loaded, Matches, Preferred;
    if exists m :: Candidate(c, m) {
      hide Vote;
      var m := VoteElects(c);
      assert m in c.machines && MarkOf(c, m) != "true" by { PreferredListed(c, m); }
      MarkOne(c, m, "true");
    } else {
      CollectedHead(c, CAN_BE_INIT_NODE);
      assert forall m :: Candidate(c, m) <==> m in c.machines && Matches(c, CAN_BE_INIT_NODE, m);
    }
  }

  lemma PreferredListed(c: Cluster, m: string)
    requires Preferred(c, m)
    ensures m in c.machines
  {
  }

  /** The designation has nothing to do. */
  ghost predicate DesignatedRests(c: Cluster, id: string) {
    id != "" && EtcdHasId(c, id) && DesignatedTo(c, id)
  }

  lemma DesignatedNil(c: Cluster, id: string)
    ensures Designated(c, id).err == Nil <==> DesignatedRests(c, id)
  {
    hide SecretToNode, SameButMark, Loaded, DesignatedMarks, Matches;
    EtcdHaveSecrets(c, Etcd);
    var names := Collected(c, Etcd);
    DesignatedMeans(Start(c), names, id);
    assert AllWanted(c, names, id) <==> DesignatedTo(c, id);
    assert SomeHasId(c, names, id) <==> EtcdHasId(c, id);
  }

  /** The election for a restore has come to rest. */
  ghost predicate RestoreRests(c: Cluster, fixed: string, snapshot: Option<Snapshot>) {
    match snapshot
    case Some(s) =>
      if s.s3 then FoundRests(c, fixed) else s.machineId.Some? && DesignatedRests(c, s.machineId.value)
    case None => |Collected(c, CAN_BE_INIT_NODE)| == 1 && FoundRests(c, fixed)
  }

  /** The election for a restore answers nil exactly when it has come to rest, and then it changes nothing. */
  lemma RestoreElectionNil(cp: Object, snapshot: Option<Snapshot>, c: Cluster)
    ensures RestoreElection(cp, snapshot, c).err == Nil <==> RestoreRests(c, cp.fixedInitNode, snapshot)
  {
    hide Elected, Designated, Matches, FoundRests, DesignatedRests;
    ElectedNil(c, cp.fixedInitNode);
    if snapshot.Some? && snapshot.value.machineId.Some? { DesignatedNil(c, snapshot.value.machineId.value); }
  }

  // ---------------------------------------------------------------- rest depends on the roster only

  lemma SameSelection(c: Cluster, c': Cluster, f: Filter)
    requires c'.machines.Keys == c.machines.Keys
    requires forall m :: m in c.machines ==> (Matches(c', f, m) <==> Matches(c, f, m))
    ensures Collected(c', f) == Collected(c, f)
  {
    hide Matches;
    assert forall m :: m in c.machines <==> m in c'.machines;
    CollectedUnique(c', f, Collected(c, f));
  }

  lemma FoundStays(c: Cluster, c': Cluster, fixed: string)
    requires SameRoster(c, c') && FoundRests(c, fixed)
    ensures FoundRests(c', fixed)
  {
    hide Matches, SameRoster, Marks;
    assert c'.machines.Keys == c.machines.Keys by { RosterKeys(c, c'); }
    forall m
      ensures MarkOf(c', m) == MarkOf(c, m) && URLOf(c', m) == URLOf(c, m) && (Candidate(c', m) <==> Candidate(c, m))
      ensures Matches(c', LabelledId(fixed), m) <==> Matches(c, LabelledId(fixed), m)
    {
      RosterMatches(c, c', m);
    }
    if fixed != "" {
      SameSelection(c, c', LabelledId(fixed));
    } else {
      RosterMarks(c, c');
      BetterMeans(c);
      BetterMeans(c');
    }
  }

  lemma RosterKeys(c: Cluster, c': Cluster)
    requires SameRoster(c, c')
    ensures c'.machines.Keys == c.machines.Keys
  {
  }

  lemma BetterMeans(c: Cluster)
    ensures BetterExists(c) <==> exists m :: Candidate(c, m) && URLOf(c, m) != ""
  {
    hide Matches;
    if BetterExists(c) {
      var m :| m in c.machines && Matches(c, CAN_BE_INIT_NODE, m) && URLOf(c, m) != "";
      assert Candidate(c, m);
    }
  }

  lemma DesignatedStays(c: Cluster, c': Cluster, id: string)
    requires SameRoster(c, c') && DesignatedRests(c, id)
    ensures DesignatedRests(c', id)
  {
    hide Matches, SameRoster, HasId;
    RosterKeys(c, c');
    assert forall m :: m in c.machines <==> m in c'.machines;
    forall m
      ensures MarkOf(c', m) == MarkOf(c, m) && (HasId(c', m, id) <==> HasId(c, m, id))
      ensures Matches(c', Etcd, m) <==> Matches(c, Etcd, m)
    {
      RosterMatches(c, c', m);
    }
    var m :| m in c.machines && Matches(c, Etcd, m) && HasId(c, m, id);
    assert m in c'.machines && Matches(c', Etcd, m) && HasId(c', m, id);
  }

  /** An election at rest stays at rest as long as the roster is the same. */
  lemma RestoreStays(c: Cluster, c': Cluster, fixed: string, snapshot: Option<Snapshot>)
    ensures SameRoster(c, c') && RestoreRests(c, fixed, snapshot) ==> RestoreRests(c', fixed, snapshot)
  {
    hide Matches, SameRoster, FoundRests, DesignatedRests;
    if SameRoster(c, c') && RestoreRests(c, fixed, snapshot) {
      match snapshot
      case Some(s) =>
        if s.s3 { FoundStays(c, c', fixed); } else { DesignatedStays(c, c', s.machineId.value); }
      case None =>
        FoundStays(c, c', fixed);
        RosterKeys(c, c');
        forall m | m in c.machines ensures Matches(c', CAN_BE_INIT_NODE, m) <==> Matches(c, CAN_BE_INIT_NODE, m) {
          RosterMatches(c, c', m);
          assert m in c'.machines;
        }
        SameSelection(c, c', CAN_BE_INIT_NODE);
    }
  }

  // ---------------------------------------------------------------- what finding the init node does to the marks

  lemma SweptMarks(c: Cluster, names: seq<string>, keep: Option<string>)
    requires HaveSecrets(c, names)
    ensures Marks(ClearedMarks(Start(c), names, keep).cluster) <= Marks(c)
  {
    hide Matches, ClearedMarks, SecretToNode, SameButMark, Loaded, Marks;
    ClearedMeans(Start(c), names, keep);
    MarksAre(c);
    MarksAre(ClearedMarks(Start(c), names, keep).cluster);
  }

  lemma MarkedMarks(c: Cluster, m: string)
    requires m in c.secrets && m in c.machines
    ensures Marks(SetMark(c, m).cluster) == Marks(c) + {m}
    ensures MarkOf(c, m) != "true" ==> m !in Marks(c)
  {
    hide Matches, SecretToNode, SameButMark, Marked, Loaded, Marks;
    MarkOne(c, m, "true");
    MarksAre(c);
    MarksAre(SetMark(c, m).cluster);
  }

  /** Looking for the init node either leaves marks away or adds one, never both. */
  lemma FoundMarks(c: Cluster, fixed: string)
    ensures var marks := Marks(FoundInitNode(c, fixed).cluster);
      marks <= Marks(c) || Marks(c) < marks
  {
    hide Matches, ClearedMarks, SetMark, SameButMark, Loaded, Marks;
    var labelled := Collected(c, LabelledId(fixed));
    if fixed != "" && |labelled| == 1 {
      var m := labelled[0];
      assert m in labelled;
      EtcdHaveSecrets(c, LabelledId(fixed));
      EtcdHaveSecrets(c, Etcd);
      SweptMarks(c, Collected(c, Etcd), Some(fixed));
      ClearedMeans(Start(c), Collected(c, Etcd), Some(fixed));
      MarkedMarks(c, m);
    }
  }
}
