/** What the init-node election promises, over one call and over repeated calls. */
module InitNodeRuns {
  import opened Model
  import opened PlanEntry
  import opened Store
  import opened InitNode
  import Names

  // ---------------------------------------------------------------- only labels change

  ghost predicate SameButMark(s: Secret, s': Secret) {
    s' == WithMark(s, s'.labels.initNode)
  }

  /** c' is c with other init-node marks. */
  ghost predicate Relabelled(c: Cluster, c': Cluster) {
    && c'.machines == c.machines && c'.nodes == c.nodes && c'.secrets.Keys == c.secrets.Keys
    && forall m :: m in c.secrets ==> SameButMark(c.secrets[m], c'.secrets[m])
  }

  lemma RelabelledPlan(c: Cluster, c': Cluster, m: string)
    requires Relabelled(c, c') && m in c.secrets
    ensures m in c'.secrets && c'.secrets[m].plan == c.secrets[m].plan
  {
    assert SameButMark(c.secrets[m], c'.secrets[m]);
  }

  /** The mark is not part of the node, so a loaded snapshot stays up to date. */
  lemma MarkedReads(s: Secret, mark: string)
    ensures SecretToNode(WithMark(s, mark)) == SecretToNode(s)
  {
  }

  lemma MarkOne(c: Cluster, m: string, mark: string)
    requires m in c.secrets
    ensures var c' := Marked(c, m, mark).cluster;
      && Relabelled(c, c') && MarkOf(c', m) == mark
      && (forall x :: x in c.secrets && x != m ==> c'.secrets[x] == c.secrets[x])
      && (Loaded(c) ==> Loaded(c'))
    ensures !SecretToNode(c.secrets[m]).Unreadable? ==> Marked(c, m, mark).err == Skip
    ensures Marked(c, m, mark).err == Skip || Marked(c, m, mark).err == Other
  {
    hide SecretToNode, Loaded;
    MarkedReads(c.secrets[m], mark);
    var c' := Marked(c, m, mark).cluster;
    forall x | x in c.secrets ensures SameButMark(c.secrets[x], c'.secrets[x]) {
    }
    if Loaded(c) { RelabelledLoaded(c, c'); }
  }

  lemma RelabelledLoaded(c: Cluster, c': Cluster)
    requires Relabelled(c, c') && Loaded(c)
    ensures Loaded(c')
  {
    hide SecretToNode, WithMark;
    forall m | m in c'.secrets
      ensures !SecretToNode(c'.secrets[m]).Unreadable? && NodeOf(c', m) == NodeFrom(SecretToNode(c'.secrets[m]))
    {
      MarkedReads(c.secrets[m], c'.secrets[m].labels.initNode);
    }
  }

  lemma CandidateMeans(c: Cluster, m: string)
    ensures Matches(c, CAN_BE_INIT_NODE, m) <==>
      && m in c.secrets && c.secrets[m].labels.etcd
      && !(m in c.machines && (c.machines[m].deleting || c.machines[m].failed))
      && m in c.machines && c.machines[m].infrastructureReady
    ensures Matches(c, PlanEntry.InitNode, m) <==> MarkOf(c, m) == "true"
  {
    var left, right := And(Etcd, Not(Deleting)), And(Not(PlanEntry.Failed), InfrastructureReady);
    assert Matches(c, left, m) <==> m in c.secrets && c.secrets[m].labels.etcd &&
                                    !(m in c.machines && c.machines[m].deleting);
    assert Matches(c, right, m) <==> !(m in c.machines && c.machines[m].failed) &&
                                     m in c.machines && c.machines[m].infrastructureReady;
    assert CAN_BE_INIT_NODE == And(left, right);
  }

  lemma CandidateSame(c: Cluster, c': Cluster, m: string)
    requires Relabelled(c, c')
    ensures Matches(c', CAN_BE_INIT_NODE, m) == Matches(c, CAN_BE_INIT_NODE, m)
    ensures Matches(c', Etcd, m) == Matches(c, Etcd, m)
    ensures URLOf(c', m) == URLOf(c, m)
  {
    CandidateMeans(c, m);
    CandidateMeans(c', m);
  }

  lemma CandidatesSame(c: Cluster, c': Cluster)
    requires Relabelled(c, c')
    ensures Collected(c', CAN_BE_INIT_NODE) == Collected(c, CAN_BE_INIT_NODE)
    ensures Collected(c', Etcd) == Collected(c, Etcd)
  {
    hide Matches;
    forall m ensures Matches(c', CAN_BE_INIT_NODE, m) == Matches(c, CAN_BE_INIT_NODE, m)
                  && Matches(c', Etcd, m) == Matches(c, Etcd, m)
    {
      CandidateSame(c, c', m);
    }
    CollectedUnique(c', CAN_BE_INIT_NODE, Collected(c, CAN_BE_INIT_NODE));
    CollectedUnique(c', Etcd, Collected(c, Etcd));
  }

  predicate Spared(c: Cluster, m: string, keep: Option<string>) {
    keep.Some? && HasId(c, m, keep.value)
  }

  function MarkOf(c: Cluster, m: string): string {
    if m in c.secrets then c.secrets[m].labels.initNode else ""
  }

  lemma SameRelabelled(c: Cluster)
    ensures Relabelled(c, c)
  {
  }

  lemma LoadedReads(c: Cluster, m: string)
    requires m in c.secrets
    ensures Loaded(c) ==> !SecretToNode(c.secrets[m]).Unreadable?
  {
  }

  lemma RelabelledTransitive(a: Cluster, b: Cluster, c: Cluster)
    requires Relabelled(a, b) && Relabelled(b, c)
    ensures Relabelled(a, c)
  {
  }

  lemma ClearStep(s: Sweep, m: string, keep: Option<string>)
    requires m in s.cluster.secrets && s.err == Nil
    ensures var next := if Spared(s.cluster, m, keep) then s else Noted(s, ClearMark(s.cluster, m));
      && Relabelled(s.cluster, next.cluster)
      && (forall x :: x in s.cluster.secrets && x != m ==> MarkOf(next.cluster, x) == MarkOf(s.cluster, x))
      && MarkOf(next.cluster, m) == (if Spared(s.cluster, m, keep) then MarkOf(s.cluster, m) else "")
      && (next.err == Nil || next.err == Other) && (s.changed ==> next.changed)
      && (next.err == Nil && !next.changed ==> next == s)
      && (Loaded(s.cluster) ==> next.err == Nil && Loaded(next.cluster))
  {
    hide SecretToNode, Marked;
    hide SameButMark, Loaded, WithMark;
    SameRelabelled(s.cluster);
    LoadedReads(s.cluster, m);
    MarkOne(s.cluster, m, "");
  }

  /** Clearing takes the marks off the named machines that are not spared, as far as it gets. */
  lemma {:induction false} ClearedMeans(s: Sweep, names: seq<string>, keep: Option<string>)
    requires HaveSecrets(s.cluster, names)
    ensures var s' := ClearedMarks(s, names, keep);
      && Relabelled(s.cluster, s'.cluster)
      && (forall m :: m in s.cluster.secrets ==>
            MarkOf(s'.cluster, m) == MarkOf(s.cluster, m) ||
            (m in names && !Spared(s.cluster, m, keep) && MarkOf(s'.cluster, m) == ""))
      && (s'.err == Nil && !s'.changed ==> s'.cluster == s.cluster)
      && (s'.err == Nil ==> forall m :: m in names && !Spared(s.cluster, m, keep) ==> MarkOf(s'.cluster, m) == "")
      && (s.err == Nil && Loaded(s.cluster) ==> s'.err == Nil && Loaded(s'.cluster))
      && (s'.err == s.err || s'.err == Other) && (s.changed ==> s'.changed)
    decreases |names|
  {
    hide SecretToNode, Noted, ClearMark, Loaded, SameButMark;
    SameRelabelled(s.cluster);
    if names != [] && s.err == Nil {
      var m, rest := names[0], names[1..];
      ClearStep(s, m, keep);
      var next := if Spared(s.cluster, m, keep) then s else Noted(s, ClearMark(s.cluster, m));
      assert forall i :: 0 <= i < |rest| ==> rest[i] == names[i + 1];
      assert names == [m] + rest;
      ClearedMeans(next, rest, keep);
      RelabelledTransitive(s.cluster, next.cluster, ClearedMarks(s, names, keep).cluster);
    }
  }

  // ---------------------------------------------------------------- one call

  /** Finding the init node changes marks at most, and nothing at all when it ends without an error. */
  lemma FoundRelabels(c: Cluster, fixed: string)
    ensures var f := FoundInitNode(c, fixed);
      Relabelled(c, f.cluster) && (f.err == Nil ==> f.cluster == c) && (fixed == "" ==> f.cluster == c && f.err != Skip)
      && (f.err == Nil ==> f.found) && f.err != Ignore && f.err != Waiting
      && (f.found && fixed != "" ==> exists m :: m in f.cluster.machines && MarkOf(f.cluster, m) == "true")
  {
    hide ClearedMarks, SecretToNode, SameButMark, Marked, Loaded;
    SameRelabelled(c);
    if fixed != "" {
      var entries := Collected(c, LabelledId(fixed));
      if |entries| == 1 {
        var m := entries[0];
        assert m in entries;
        assert m in c.secrets by { EtcdHaveSecrets(c, LabelledId(fixed)); }
        EtcdHaveSecrets(c, Etcd);
        ClearedMeans(Start(c), Collected(c, Etcd), Some(fixed));
        MarkOne(ClearedMarks(Start(c), Collected(c, Etcd), Some(fixed)).cluster, m, "true");
      }
    }
  }

  lemma VoteRelabels(c: Cluster)
    ensures Relabelled(c, Vote(c).cluster)
    ensures Vote(c).err == Nil ==> Vote(c).cluster == c
    ensures Vote(c).err != Ignore
  {
    hide Matches, SecretToNode, SameButMark, Marked, Loaded, Preferred;
    SameRelabelled(c);
    if exists m :: Candidate(c, m) {
      hide Vote;
      var m := VoteElects(c);
      MarkOne(c, m, "true");
    } else {
      CollectedHead(c, CAN_BE_INIT_NODE);
      assert forall m :: Candidate(c, m) <==> m in c.machines && Matches(c, CAN_BE_INIT_NODE, m);
    }
  }

  ghost predicate AnyMark(c: Cluster) {
    exists m :: m in c.machines && MarkOf(c, m) == "true"
  }

  /** The sweep of an election: it reports a change whenever there was a mark. */
  lemma ElectionSweep(c: Cluster)
    requires HaveSecrets(c, Collected(c, PlanEntry.InitNode))
    ensures var sweep := ClearedMarks(Start(c), Collected(c, PlanEntry.InitNode), None);
      && Relabelled(c, sweep.cluster)
      && (sweep.err == Nil || sweep.err == Other)
      && (sweep.err == Nil ==> !AnyMark(sweep.cluster) && (sweep.changed <==> AnyMark(c)))
      && (sweep.err == Nil && !sweep.changed ==> sweep.cluster == c)
      && (Loaded(c) ==> sweep.err == Nil && Loaded(sweep.cluster))
      && (forall m :: MarkOf(sweep.cluster, m) == MarkOf(c, m) || MarkOf(sweep.cluster, m) == "")
  {
    hide Matches, SecretToNode, SameButMark, Loaded, ClearedMarks;
    var current := Collected(c, PlanEntry.InitNode);
    ClearedMeans(Start(c), current, None);
    forall m | m in c.machines ensures m in current <==> MarkOf(c, m) == "true" {
      CandidateMeans(c, m);
    }
    if current == [] { assert ClearedMarks(Start(c), [], None) == Start(c) by { NothingToClear(c); } }
  }

  lemma NothingToClear(c: Cluster)
    ensures ClearedMarks(Start(c), [], None) == Start(c)
  {
  }

  /** An election changes marks at most, and nothing at all when it ends without an error: every change of a mark is
      followed by an error, so no plan is written on the strength of a stale mark. */
  lemma ElectedRelabels(c: Cluster, fixed: string, allowReelection: bool)
    ensures var e := Elected(c, fixed, allowReelection);
      Relabelled(c, e.cluster) && (e.err == Nil ==> e.cluster == c) && e.err != Ignore
  {
    hide Matches, SecretToNode, FoundInitNode, ClearedMarks, Vote, Relabelled, Loaded;
    FoundRelabels(c, fixed);
    var f := FoundInitNode(c, fixed);
    EtcdHaveSecrets(f.cluster, PlanEntry.InitNode);
    ElectionSweep(f.cluster);
    var swept := ClearedMarks(Start(f.cluster), Collected(f.cluster, PlanEntry.InitNode), None).cluster;
    VoteRelabels(swept);
    RelabelledTransitive(c, f.cluster, swept);
    RelabelledTransitive(c, swept, Vote(swept).cluster);
    if f.found && fixed != "" { assert AnyMark(f.cluster); }
  }

  function Wanted(c: Cluster, m: string, id: string): string {
    if HasId(c, m, id) then "true" else ""
  }

  lemma DesignateStep(s: Sweep, m: string, id: string)
    requires m in s.cluster.secrets && s.err == Nil
    ensures var next := DesignatedOne(s, m, id);
      && Relabelled(s.cluster, next.cluster)
      && (forall x :: x in s.cluster.secrets && x != m ==> next.cluster.secrets[x] == s.cluster.secrets[x])
      && MarkOf(next.cluster, m) == Wanted(s.cluster, m, id)
      && (next.err == Nil || next.err == Other)
      && (next.err == Nil ==> (next.changed <==> s.changed || MarkOf(s.cluster, m) != Wanted(s.cluster, m, id)))
      && (MarkOf(s.cluster, m) == Wanted(s.cluster, m, id) ==> next.cluster == s.cluster && next.err == Nil)
      && (next.found <==> s.found || HasId(s.cluster, m, id))
      && (Loaded(s.cluster) ==> next.err == Nil && Loaded(next.cluster))
  {
    hide SecretToNode, Marked;
    hide SameButMark, Loaded, WithMark;
    SameRelabelled(s.cluster);
    LoadedReads(s.cluster, m);
    MarkOne(s.cluster, m, "");
    MarkOne(s.cluster, m, "true");
  }

  ghost predicate AllWanted(c: Cluster, names: seq<string>, id: string) {
    forall m :: m in names ==> MarkOf(c, m) == Wanted(c, m, id)
  }

  ghost predicate SomeHasId(c: Cluster, names: seq<string>, id: string) {
    exists m :: m in names && HasId(c, m, id)
  }

  lemma WantedCons(c: Cluster, c': Cluster, m: string, rest: seq<string>, id: string)
    requires c'.machines == c.machines
    requires forall x :: x in rest ==> MarkOf(c', x) == MarkOf(c, x)
    ensures AllWanted(c, [m] + rest, id) <==> MarkOf(c, m) == Wanted(c, m, id) && AllWanted(c', rest, id)
    ensures SomeHasId(c, [m] + rest, id) <==> HasId(c, m, id) || SomeHasId(c', rest, id)
  {
    var names := [m] + rest;
    assert forall x :: x in names <==> x == m || x in rest;
    assert forall x :: Wanted(c', x, id) == Wanted(c, x, id) && HasId(c', x, id) == HasId(c, x, id);
    if MarkOf(c, m) == Wanted(c, m, id) && AllWanted(c', rest, id) {
      forall x | x in names ensures MarkOf(c, x) == Wanted(c, x, id) {
        if x != m { assert MarkOf(c', x) == Wanted(c', x, id); }
      }
    }
    if AllWanted(c, names, id) {
      assert m in names;
    }
    if HasId(c, m, id) { assert m in names; }
  }

  /** The designation, when it ends without an error, has put the mark on exactly the named machines with the id; it
      reports a change exactly when there was one to make. */
  lemma {:induction false} DesignatedMeans(s: Sweep, names: seq<string>, id: string)
    requires HaveSecrets(s.cluster, names) && Names.NoDuplicates(names)
    ensures var s' := DesignatedMarks(s, names, id);
      && Relabelled(s.cluster, s'.cluster)
      && (s'.err == s.err || s'.err == Other)
      && (s.err == Nil && Loaded(s.cluster) ==> s'.err == Nil && Loaded(s'.cluster))
      && (s'.err == Nil ==>
            && AllWanted(s'.cluster, names, id)
            && (s'.changed <==> s.changed || !AllWanted(s.cluster, names, id))
            && (s'.found <==> s.found || SomeHasId(s.cluster, names, id)))
      && (s.err == Nil && AllWanted(s.cluster, names, id) ==> s'.cluster == s.cluster && s'.err == Nil)
      && (forall m :: m in s.cluster.secrets && m !in names ==> s'.cluster.secrets[m] == s.cluster.secrets[m])
    decreases |names|
  {
    hide SecretToNode, DesignatedOne, Loaded, SameButMark;
    SameRelabelled(s.cluster);
    if names == [] {
      assert AllWanted(s.cluster, names, id) && !SomeHasId(s.cluster, names, id);
    } else if s.err == Nil {
      hide AllWanted, SomeHasId;
      var m, rest := names[0], names[1..];
      DesignateStep(s, m, id);
      var next := DesignatedOne(s, m, id);
      assert forall i :: 0 <= i < |rest| ==> rest[i] == names[i + 1];
      assert names == [m] + rest && m !in rest;
      DesignatedMeans(next, rest, id);
      RelabelledTransitive(s.cluster, next.cluster, DesignatedMarks(s, names, id).cluster);
      var s' := DesignatedMarks(s, names, id);
      WantedCons(s.cluster, next.cluster, m, rest, id);
      WantedCons(s'.cluster, s'.cluster, m, rest, id);
      assert Wanted(s'.cluster, m, id) == Wanted(s.cluster, m, id);
    }
  }

  // ---------------------------------------------------------------- who is elected

  ghost predicate Candidate(c: Cluster, m: string) {
    m in c.machines && Matches(c, CAN_BE_INIT_NODE, m)
  }

  /** m is the first candidate by name among those with a join URL, or among all when none has one. */
  ghost predicate Preferred(c: Cluster, m: string) {
    && Candidate(c, m)
    && (BetterExists(c) ==> URLOf(c, m) != "")
    && forall x :: Candidate(c, x) && (BetterExists(c) ==> URLOf(c, x) != "") ==> x == m || Names.Less(m, x)
  }

  lemma BetterListed(c: Cluster)
    ensures var names := Collected(c, CAN_BE_INIT_NODE);
      BetterExists(c) <==> FirstWithURL(c, names) < |names|
  {
    hide Matches, FirstWithURL, Names.NoDuplicates, Names.Sorted;
    var names := Collected(c, CAN_BE_INIT_NODE);
    var i := FirstWithURL(c, names);
    if i < |names| {
      assert names[i] in names;
    } else {
      forall m | m in c.machines && Matches(c, CAN_BE_INIT_NODE, m) ensures URLOf(c, m) == "" {
        assert m in names;
      }
    }
  }

  lemma FirstCandidate(c: Cluster)
    requires exists m :: Candidate(c, m)
    ensures var names := Collected(c, CAN_BE_INIT_NODE);
      var i := FirstWithURL(c, names);
      names != [] && Preferred(c, if i < |names| then names[i] else names[0])
  {
    hide Matches, BetterExists, FirstWithURL, Names.NoDuplicates;
    var names := Collected(c, CAN_BE_INIT_NODE);
    var i := FirstWithURL(c, names);
    BetterListed(c);
    var m :| Candidate(c, m);
    assert m in names;
    var k := if i < |names| then i else 0;
    assert names[k] in names;
    forall x | Candidate(c, x) && (BetterExists(c) ==> URLOf(c, x) != "")
      ensures x == names[k] || Names.Less(names[k], x)
    {
      assert x in names;
      var j :| 0 <= j < |names| && names[j] == x;
      assert k <= j;
    }
  }

  lemma OnlyMark(c: Cluster, c': Cluster, m: string)
    requires !AnyMark(c) && m in c.machines && m in c.secrets && MarkOf(c', m) == "true" && c'.machines == c.machines
    requires forall x :: x != m ==> MarkOf(c', x) == MarkOf(c, x)
    ensures Marks(c') == {m}
  {
    hide Matches;
    forall x ensures x in Marks(c') <==> x == m {
      CandidateMeans(c', x);
    }
  }

  /** The machine that Vote marks. */
  lemma VoteElects(c: Cluster) returns (m: string)
    requires exists x :: Candidate(c, x)
    ensures Preferred(c, m) && m in c.secrets
    ensures var marking := SetMark(c, m);
      Vote(c) == Election(marking.cluster, URLOf(c, m), marking.err)
  {
    hide SecretToNode, Matches, Marked, Preferred;
    var names := Collected(c, CAN_BE_INIT_NODE);
    EtcdHaveSecrets(c, CAN_BE_INIT_NODE);
    FirstCandidate(c);
    var i := FirstWithURL(c, names);
    m := if i < |names| then names[i] else names[0];
  }

  lemma VoteMeans(c: Cluster) returns (m: string)
    requires !AnyMark(c)
    ensures var e := Vote(c);
      if exists x :: Candidate(c, x) then
        && Preferred(c, m) && Marks(e.cluster) == {m} && e.joinURL == URLOf(c, m)
        && Relabelled(c, e.cluster) && (Loaded(c) ==> e.err == Skip && Loaded(e.cluster))
      else e == Election(c, "", Waiting)
  {
    hide SecretToNode, SameButMark, Loaded, Matches, Marks, Marked;
    assert forall x :: Candidate(c, x) <==> x in c.machines && Matches(c, CAN_BE_INIT_NODE, x);
    if exists x :: Candidate(c, x) {
      hide Vote;
      m := VoteElects(c);
      assert MarkOf(c, m) != "true";
      MarkOne(c, m, "true");
      LoadedReads(c, m);
      OnlyMark(c, Vote(c).cluster, m);
    } else {
      CollectedHead(c, CAN_BE_INIT_NODE);
      m := "";
    }
  }

  lemma MarksAre(c: Cluster)
    ensures forall m :: m in Marks(c) <==> m in c.machines && MarkOf(c, m) == "true"
    ensures AnyMark(c) <==> Marks(c) != {}
  {
    forall m ensures Matches(c, PlanEntry.InitNode, m) <==> MarkOf(c, m) == "true" {
      CandidateMeans(c, m);
    }
    if Marks(c) != {} {
      var m :| m in Marks(c);
    }
  }

  /** Without a fixed init node, a call adds a mark only when there was none at all, and then exactly one, on the
      preferred candidate; re-election takes all marks away in an earlier call. */
  lemma ElectionRaisesFromNone(c: Cluster, allowReelection: bool)
    ensures var e := Elected(c, "", allowReelection);
      || Marks(e.cluster) <= Marks(c)
      || (Marks(c) == {} && exists m :: Marks(e.cluster) == {m} && Preferred(c, m) && e.joinURL == URLOf(c, m))
  {
    hide Matches, SecretToNode, ClearedMarks, Vote, SameButMark, Loaded, Marks, Preferred;
    FoundRelabels(c, "");
    EtcdHaveSecrets(c, PlanEntry.InitNode);
    ElectionSweep(c);
    MarksAre(c);
    var sweep := ClearedMarks(Start(c), Collected(c, PlanEntry.InitNode), None);
    MarksAre(sweep.cluster);
    if sweep.err == Nil && !sweep.changed {
      var m := VoteMeans(c);
    }
  }

  /** A sweep reports a change exactly when some machine that is not spared had a mark to clear. */
  lemma {:induction false} ClearedChange(s: Sweep, names: seq<string>, keep: Option<string>)
    requires HaveSecrets(s.cluster, names) && Names.NoDuplicates(names)
    ensures var s' := ClearedMarks(s, names, keep);
      s'.err == Nil ==>
        (s'.changed <==>
           s.changed || exists m :: m in names && !Spared(s.cluster, m, keep) && MarkOf(s.cluster, m) != "")
    decreases |names|
  {
    hide SecretToNode, ClearMark, Loaded, SameButMark;
    if names != [] && s.err == Nil {
      var m, rest := names[0], names[1..];
      ClearStep(s, m, keep);
      ClearChange(s.cluster, m);
      var next := if Spared(s.cluster, m, keep) then s else Noted(s, ClearMark(s.cluster, m));
      assert forall i :: 0 <= i < |rest| ==> rest[i] == names[i + 1];
      assert names == [m] + rest && m !in rest;
      ClearedChange(next, rest, keep);
      assert forall x :: x in rest ==> Spared(next.cluster, x, keep) == Spared(s.cluster, x, keep);
      assert forall x :: x in rest ==> MarkOf(next.cluster, x) == MarkOf(s.cluster, x);
    }
  }

  lemma ClearChange(c: Cluster, m: string)
    requires m in c.secrets
    ensures ClearMark(c, m).err == Nil <==> MarkOf(c, m) == ""
  {
    hide SecretToNode, SameButMark;
    MarkOne(c, m, "");
  }

  /** The machine m alone is labelled as the fixed init node and lacks the mark, and no other etcd machine has a mark to
      clear. */
  ghost predicate FixedRoom(c: Cluster, fixed: string, m: string) {
    && Collected(c, LabelledId(fixed)) == [m] && MarkOf(c, m) != "true"
    && forall x :: x in c.machines && Matches(c, Etcd, x) && !HasId(c, x, fixed) ==> MarkOf(c, x) == ""
  }

  /** With a fixed init node that is labelled as one machine, a call does nothing when that machine has the mark, sets
      the mark when there is room for it, and otherwise clears the marks of the other etcd machines. */
  lemma FixedStep(c: Cluster, fixed: string, m: string, allowReelection: bool)
    requires Loaded(c) && fixed != "" && Collected(c, LabelledId(fixed)) == [m]
    ensures var e := Elected(c, fixed, allowReelection);
      && Relabelled(c, e.cluster) && Loaded(e.cluster) && m in c.machines
      && (MarkOf(c, m) == "true" ==> e == Election(c, URLOf(c, m), Nil))
      && (MarkOf(c, m) != "true" ==> e.err == Skip)
      && (FixedRoom(c, fixed, m) ==>
            MarkOf(e.cluster, m) == "true" && forall x :: x != m ==> MarkOf(e.cluster, x) == MarkOf(c, x))
      && (MarkOf(c, m) != "true" && !FixedRoom(c, fixed, m) ==>
            && (forall x :: MarkOf(e.cluster, x) == MarkOf(c, x) || MarkOf(e.cluster, x) == "")
            && forall x :: x in c.machines && Matches(c, Etcd, x) && !HasId(c, x, fixed) ==> MarkOf(e.cluster, x) == "")
  {
    hide SecretToNode, SameButMark, Loaded, ClearedMarks, Marked, Matches, Vote;
    var names := Collected(c, Etcd);
    EtcdHaveSecrets(c, Etcd);
    EtcdHaveSecrets(c, LabelledId(fixed));
    assert [m][0] == m && m in [m];
    assert m in c.secrets;
    SameRelabelled(c);
    if MarkOf(c, m) != "true" {
      ClearedMeans(Start(c), names, Some(fixed));
      ClearedChange(Start(c), names, Some(fixed));
      var sweep := ClearedMarks(Start(c), names, Some(fixed));
      MarkOne(sweep.cluster, m, "true");
      LoadedReads(sweep.cluster, m);
    }
  }

  /** The number of marks grows exactly when there is room for the fixed init node, and then by that one mark. A marked
      machine without the etcd role is not looked at: with such a machine, the mark is the second one. */
  lemma FixedRaises(c: Cluster, fixed: string, allowReelection: bool)
    requires Loaded(c) && fixed != ""
    ensures var marks, marks' := Marks(c), Marks(Elected(c, fixed, allowReelection).cluster);
      && (|marks'| > |marks| <==> exists m :: FixedRoom(c, fixed, m))
      && (forall m :: FixedRoom(c, fixed, m) ==> m !in marks && marks' == marks + {m})
      && (|marks'| > |marks| && |marks'| > 1 <==> marks != {} && exists m :: FixedRoom(c, fixed, m))
  {
    hide Matches, Marks, FixedRoom, Elected, Loaded;
    var c' := Elected(c, fixed, allowReelection).cluster;
    var labelled := Collected(c, LabelledId(fixed));
    forall x | FixedRoom(c, fixed, x) ensures labelled == [x] && x !in Marks(c) && Marks(c') == Marks(c) + {x} {
      RoomIsLabelled(c, fixed, x);
      RoomRaises(c, fixed, x, allowReelection);
    }
    if !exists x :: FixedRoom(c, fixed, x) {
      NoRoomKeeps(c, fixed, allowReelection);
      Smaller(Marks(c'), Marks(c));
    }
  }

  lemma RoomRaises(c: Cluster, fixed: string, m: string, allowReelection: bool)
    requires Loaded(c) && fixed != "" && FixedRoom(c, fixed, m)
    ensures m !in Marks(c) && Marks(Elected(c, fixed, allowReelection).cluster) == Marks(c) + {m}
  {
    hide SameButMark, Loaded, Matches, Marks, Elected;
    var c' := Elected(c, fixed, allowReelection).cluster;
    MarksAre(c);
    MarksAre(c');
    FixedStep(c, fixed, m, allowReelection);
  }

  lemma NoRoomKeeps(c: Cluster, fixed: string, allowReelection: bool)
    requires Loaded(c) && fixed != "" && !exists m :: FixedRoom(c, fixed, m)
    ensures Marks(Elected(c, fixed, allowReelection).cluster) <= Marks(c)
  {
    hide SameButMark, Loaded, Matches, Marks, Elected, FixedRoom;
    var c' := Elected(c, fixed, allowReelection).cluster;
    var labelled := Collected(c, LabelledId(fixed));
    MarksAre(c);
    MarksAre(c');
    if |labelled| == 1 {
      assert labelled == [labelled[0]];
      FixedStep(c, fixed, labelled[0], allowReelection);
    } else {
      UnlabelledWaits(c, fixed, allowReelection);
    }
  }

  lemma UnlabelledWaits(c: Cluster, fixed: string, allowReelection: bool)
    requires fixed != "" && |Collected(c, LabelledId(fixed))| != 1
    ensures Elected(c, fixed, allowReelection) == Election(c, "", Waiting)
  {
    hide Matches;
  }

  lemma RoomIsLabelled(c: Cluster, fixed: string, m: string)
    requires FixedRoom(c, fixed, m)
    ensures Collected(c, LabelledId(fixed)) == [m] && MarkOf(c, m) != "true"
  {
  }

  lemma Smaller(a: set<string>, b: set<string>)
    requires a <= b
    ensures |a| <= |b|
  {
    assert b == a + (b - a);
  }

  const UNLABELLED := Labels(false, false, false, false, "", "")

  function FreshSecret(labels: Labels): Secret {
    Secret(labels, Annotations("", "", "", "", Blank, Blank, Blank, Blank, Blank, None, map[]),
           Absent, Absent, NoSum, NoSum, Absent, Absent, Absent, Absent, Absent, Absent)
  }

  const FRESH_MACHINE := Machine("", "", false, false, true, None, true, true, true, Summary(false, false, false))

  /** A cluster with one mark, on a worker, in which a call sets a second one. */
  lemma SecondMark() returns (c: Cluster)
    ensures Loaded(c) && |Marks(c)| == 1 && |Marks(Elected(c, "x", true).cluster)| == 2
  {
    var a := FreshSecret(UNLABELLED.(etcd := true, machineId := "x"));
    var b := FreshSecret(UNLABELLED.(worker := true, initNode := "true"));
    c := Cluster(map["a" := FRESH_MACHINE, "b" := FRESH_MACHINE], map[], map["a" := a, "b" := b]);
    assert forall m :: m in ["a"] <==> m == "a" by { assert ["a"][0] == "a"; }
    CollectedUnique(c, LabelledId("x"), ["a"]);
    assert FixedRoom(c, "x", "a");
    MarksAre(c);
    assert MarkOf(c, "b") == "true" && MarkOf(c, "a") == "";
    assert Marks(c) == {"b"};
    FixedRaises(c, "x", true);
  }

  // ---------------------------------------------------------------- repeated elections

  /** The cluster after n elections. */
  ghost function After(c: Cluster, fixed: string, n: nat): Cluster
    decreases n
  {
    if n == 0 then c else After(Elected(c, fixed, true).cluster, fixed, n - 1)
  }

  /** The election has come to rest: it answers nil, changes nothing, and one candidate holds the only mark. */
  ghost predicate AtRest(c: Cluster) {
    var e := Elected(c, "", true);
    e.err == Nil && e.cluster == c && exists m :: Marks(c) == {m} && Candidate(c, m) && e.joinURL == URLOf(c, m)
  }

  /** The only mark is on a candidate, and no other candidate would do better. */
  lemma GoodMarkRests(c: Cluster, m: string)
    requires Marks(c) == {m} && Candidate(c, m) && (BetterExists(c) ==> URLOf(c, m) != "")
    ensures AtRest(c)
  {
    hide Matches;
    var current := Collected(c, PlanEntry.InitNode);
    assert forall x :: x in current <==> x in Marks(c);
    assert m in current;
    Names.Singleton(current, m);
    assert Elected(c, "", true) == Election(c, URLOf(c, m), Nil);
  }

  /** From no mark at all, one call elects and the next one is at rest. */
  lemma NoMarkElects(c: Cluster)
    requires Loaded(c) && Marks(c) == {} && exists m :: Candidate(c, m)
    ensures var e := Elected(c, "", true);
      e.err == Skip && Loaded(e.cluster) && Relabelled(c, e.cluster) && AtRest(e.cluster)
  {
    hide Matches, SecretToNode, SameButMark, Loaded, Marks, ClearedMarks, Vote;
    MarksAre(c);
    EtcdHaveSecrets(c, PlanEntry.InitNode);
    ElectionSweep(c);
    var current := Collected(c, PlanEntry.InitNode);
    forall x | x in c.machines ensures !Matches(c, PlanEntry.InitNode, x) {
      CandidateMeans(c, x);
    }
    CollectedHead(c, PlanEntry.InitNode);
    var m := VoteMeans(c);
    var c' := Vote(c).cluster;
    forall x ensures Candidate(c', x) == Candidate(c, x) && URLOf(c', x) == URLOf(c, x) {
      CandidateSame(c, c', x);
    }
    GoodMarkRests(c', m);
  }

  /** With any mark, a call is either at rest or clears every mark. */
  lemma MarkRestsOrClears(c: Cluster)
    requires Loaded(c) && Marks(c) != {}
    ensures var e := Elected(c, "", true);
      AtRest(c) || (e.err == Skip && Loaded(e.cluster) && Relabelled(c, e.cluster) && Marks(e.cluster) == {})
  {
    hide Matches, SecretToNode, SameButMark, Loaded, ClearedMarks, Vote;
    MarksAre(c);
    EtcdHaveSecrets(c, PlanEntry.InitNode);
    ElectionSweep(c);
    var sweep := ClearedMarks(Start(c), Collected(c, PlanEntry.InitNode), None);
    MarksAre(sweep.cluster);
    var f := FoundInitNode(c, "");
    if f.found && f.err == Nil {
      var current := Collected(c, PlanEntry.InitNode);
      assert forall x :: x in current <==> x in Marks(c);
      assert current == [current[0]];
      assert Marks(c) == {current[0]};
      GoodMarkRests(c, current[0]);
    }
  }

  /** With a stable roster in which somebody can be the init node, at most two calls end with the skip error; the next
      one answers nil, and every later one too, with exactly one mark left, on a candidate. */
  lemma ElectionConverges(c: Cluster) returns (n: nat)
    requires Loaded(c) && exists m :: Candidate(c, m)
    ensures n <= 2 && AtRest(After(c, "", n))
    ensures forall k: nat :: k < n ==> Elected(After(c, "", k), "", true).err == Skip
  {
    hide Matches, Elected, Loaded, SameButMark, Marks;
    var c1 := Elected(c, "", true).cluster;
    var c2 := Elected(c1, "", true).cluster;
    assert After(c, "", 0) == c && After(c, "", 1) == c1 by { assert After(c, "", 1) == After(c1, "", 0); }
    assert After(c, "", 2) == c2 by { assert After(c, "", 2) == After(c1, "", 1) == After(c2, "", 0); }
    if AtRest(c) {
      return 0;
    }
    if Marks(c) == {} {
      NoMarkElects(c);
      return 1;
    }
    MarkRestsOrClears(c);
    var m :| Candidate(c, m);
    CandidateSame(c, c1, m);
    assert Candidate(c1, m);
    NoMarkElects(c1);
    return 2;
  }

  lemma LabelledSame(c: Cluster, c': Cluster, fixed: string)
    requires Relabelled(c, c')
    ensures Collected(c', LabelledId(fixed)) == Collected(c, LabelledId(fixed))
  {
    hide SameButMark;
    forall m ensures Matches(c', LabelledId(fixed), m) == Matches(c, LabelledId(fixed), m) {
      if m in c.secrets { MarkKeepsId(c.secrets[m], c'.secrets[m]); }
    }
    CollectedUnique(c', LabelledId(fixed), Collected(c, LabelledId(fixed)));
  }

  lemma MarkKeepsId(s: Secret, s': Secret)
    requires SameButMark(s, s')
    ensures s'.labels.machineId == s.labels.machineId
  {
  }

  /** The election with a fixed init node has come to rest on m. */
  ghost predicate FixedAtRest(c: Cluster, fixed: string, m: string) {
    MarkOf(c, m) == "true" && Elected(c, fixed, true) == Election(c, URLOf(c, m), Nil)
  }

  /** After a call that only cleared marks there is room. */
  lemma ClearedMakesRoom(c: Cluster, fixed: string, m: string)
    requires Loaded(c) && fixed != "" && Collected(c, LabelledId(fixed)) == [m]
    requires MarkOf(c, m) != "true" && !FixedRoom(c, fixed, m)
    ensures FixedRoom(Elected(c, fixed, true).cluster, fixed, m)
  {
    hide SecretToNode, SameButMark, Loaded, Matches, Elected, FixedRoom;
    FixedStep(c, fixed, m, true);
    var c' := Elected(c, fixed, true).cluster;
    LabelledSame(c, c', fixed);
    forall x ensures Matches(c', Etcd, x) == Matches(c, Etcd, x) {
      CandidateSame(c, c', x);
    }
    assert FixedRoom(c', fixed, m) by { RoomIs(c', fixed, m); }
  }

  lemma RoomIs(c: Cluster, fixed: string, m: string)
    requires Collected(c, LabelledId(fixed)) == [m] && MarkOf(c, m) != "true"
    requires forall x :: x in c.machines && Matches(c, Etcd, x) && !HasId(c, x, fixed) ==> MarkOf(c, x) == ""
    ensures FixedRoom(c, fixed, m)
  {
  }

  /** With a fixed init node that is labelled as one machine, at most two calls end with the skip error; the next one,
      and every later one, answers nil with the mark on that machine. */
  lemma FixedElectionConverges(c: Cluster, fixed: string, m: string) returns (n: nat)
    requires Loaded(c) && fixed != "" && Collected(c, LabelledId(fixed)) == [m]
    ensures n <= 2 && FixedAtRest(After(c, fixed, n), fixed, m)
    ensures forall k: nat :: k < n ==> Elected(After(c, fixed, k), fixed, true).err == Skip
  {
    hide Matches, Elected, Loaded, SameButMark, FixedRoom;
    var c1 := Elected(c, fixed, true).cluster;
    var c2 := Elected(c1, fixed, true).cluster;
    assert After(c, fixed, 0) == c && After(c, fixed, 1) == c1 by { assert After(c, fixed, 1) == After(c1, fixed, 0); }
    assert After(c, fixed, 2) == c2 by { assert After(c, fixed, 2) == After(c1, fixed, 1) == After(c2, fixed, 0); }
    FixedStep(c, fixed, m, true);
    if MarkOf(c, m) == "true" {
      return 0;
    }
    LabelledSame(c, c1, fixed);
    FixedStep(c1, fixed, m, true);
    if FixedRoom(c, fixed, m) {
      return 1;
    }
    ClearedMakesRoom(c, fixed, m);
    RoomIsLabelled(c1, fixed, m);
    LabelledSame(c1, c2, fixed);
    FixedStep(c2, fixed, m, true);
    return 2;
  }

  /** When no machine, or more than one, is labelled as the fixed init node, every call waits and nothing changes. */
  lemma {:induction false} FixedElectionWaits(c: Cluster, fixed: string, n: nat)
    requires fixed != "" && |Collected(c, LabelledId(fixed))| != 1
    ensures After(c, fixed, n) == c && Elected(c, fixed, true) == Election(c, "", Waiting)
  {
    hide Matches, Elected;
    UnlabelledWaits(c, fixed, true);
    if n > 0 { FixedElectionWaits(c, fixed, n - 1); }
  }

  // ---------------------------------------------------------------- designation

  /** The marks among the etcd machines are on exactly those with the id. */
  ghost predicate DesignatedTo(c: Cluster, id: string) {
    forall m :: m in c.machines && Matches(c, Etcd, m) ==> MarkOf(c, m) == Wanted(c, m, id)
  }

  ghost predicate EtcdHasId(c: Cluster, id: string) {
    exists m :: m in c.machines && Matches(c, Etcd, m) && HasId(c, m, id)
  }

  /** A designation whose machine exists is complete after one call, which skips exactly when there was something to
      change; the next call answers nil and changes nothing. */
  lemma DesignationConverges(c: Cluster, id: string)
    requires Loaded(c) && id != "" && EtcdHasId(c, id)
    ensures var e := Designated(c, id);
      && Relabelled(c, e.cluster) && DesignatedTo(e.cluster, id)
      && (e.err == if DesignatedTo(c, id) then Nil else Skip)
      && Designated(e.cluster, id).err == Nil && Designated(e.cluster, id).cluster == e.cluster
  {
    hide SecretToNode, SameButMark, Loaded, DesignatedMarks, Matches;
    DesignationStep(c, id);
    var c' := Designated(c, id).cluster;
    CandidatesSame(c, c');
    forall m ensures Matches(c', Etcd, m) == Matches(c, Etcd, m) && HasId(c', m, id) == HasId(c, m, id) {
      CandidateSame(c, c', m);
    }
    DesignationStep(c', id);
  }

  lemma DesignationStep(c: Cluster, id: string)
    requires Loaded(c) && id != "" && EtcdHasId(c, id)
    ensures var e := Designated(c, id);
      && Relabelled(c, e.cluster) && Loaded(e.cluster) && DesignatedTo(e.cluster, id)
      && (e.err == if DesignatedTo(c, id) then Nil else Skip)
      && (e.err == Nil ==> e.cluster == c)
  {
    hide SecretToNode, SameButMark, Loaded, DesignatedMarks, Matches;
    var names := Collected(c, Etcd);
    EtcdHaveSecrets(c, Etcd);
    DesignatedMeans(Start(c), names, id);
    var c' := DesignatedMarks(Start(c), names, id).cluster;
    CandidatesSame(c, c');
    var m :| m in c.machines && Matches(c, Etcd, m) && HasId(c, m, id);
    assert m in names;
    assert AllWanted(c, names, id) <==> DesignatedTo(c, id);
    forall x | x in c'.machines && Matches(c', Etcd, x) ensures MarkOf(c', x) == Wanted(c', x, id) {
      assert x in Collected(c', Etcd);
      assert x in names;
    }
  }

  /** A designation that ends without an error changes nothing; no designation touches anything but marks. */
  lemma DesignatedRelabels(c: Cluster, id: string)
    ensures var e := Designated(c, id);
      Relabelled(c, e.cluster) && (e.err == Nil ==> e.cluster == c) && e.err != Ignore
  {
    hide SecretToNode, SameButMark, Loaded, DesignatedMarks, Matches;
    SameRelabelled(c);
    EtcdHaveSecrets(c, Etcd);
    DesignatedMeans(Start(c), Collected(c, Etcd), id);
  }

  /** Where re-election is not allowed, a marked machine that no longer serves is waited for, and nothing is changed. */
  lemma NoReelection(c: Cluster)
    requires AnyMark(c)
    ensures var e := Elected(c, "", false);
      e.cluster == c && (e.err == Nil || e.err == Waiting) && (e.err == Nil <==> FoundInitNode(c, "").err == Nil)
  {
    hide Matches;
    var current := Collected(c, PlanEntry.InitNode);
    var m :| m in c.machines && MarkOf(c, m) == "true";
    CandidateMeans(c, m);
    assert m in current;
    FoundRelabels(c, "");
  }
}
