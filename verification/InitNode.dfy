/** Finding, electing and designating the init node, through a label on the machine-plan secrets. */
module InitNode {
  import opened Model
  import opened PlanEntry
  import opened Store

  // ---------------------------------------------------------------- one mark

  datatype Change = Change(cluster: Cluster, err: Err)

  function WithMark(s: Secret, mark: string): Secret {
    s.(labels := s.labels.(initNode := mark))
  }

  function Marked(c: Cluster, m: string, mark: string): Change
    requires m in c.secrets
  {
    var w := Reload(c, m, WithMark(c.secrets[m], mark), None);
    Change(w.cluster, if w.err == Nil then Skip else w.err)
  }

  /** setInitNodeMark: a change ends with the skip error, so that the caches can catch up. */
  function SetMark(c: Cluster, m: string): Change
    requires m in c.secrets
  {
    if c.secrets[m].labels.initNode == "true" then Change(c, Nil) else Marked(c, m, "true")
  }

  /** clearInitNodeMark. */
  function ClearMark(c: Cluster, m: string): Change
    requires m in c.secrets
  {
    if c.secrets[m].labels.initNode == "" then Change(c, Nil) else Marked(c, m, "")
  }

  ghost function Marks(c: Cluster): set<string> {
    set m | m in c.machines && Matches(c, PlanEntry.InitNode, m)
  }

  ghost predicate HaveSecrets(c: Cluster, names: seq<string>) {
    forall i :: 0 <= i < |names| ==> names[i] in c.secrets
  }

  // ---------------------------------------------------------------- sweeps over the marks

  /** changed: some mark was set or cleared. found and joinURL are used by the designation. */
  datatype Sweep = Sweep(cluster: Cluster, changed: bool, err: Err, found: bool, joinURL: string)

  function Start(c: Cluster): Sweep {
    Sweep(c, false, Nil, false, "")
  }

  predicate HasId(c: Cluster, m: string, id: string) {
    m in c.machines && c.machines[m].machineId == id
  }

  /** The sweep goes on after a skip error and stops at any other one. */
  function Noted(s: Sweep, change: Change): Sweep {
    match change.err
    case Nil => s.(cluster := change.cluster)
    case Skip => s.(cluster := change.cluster, changed := true)
    case _ => s.(cluster := change.cluster, err := change.err)
  }

  /** Clears the marks of the named machines, except the one with the id to keep. */
  ghost function ClearedMarks(s: Sweep, names: seq<string>, keep: Option<string>): (s': Sweep)
    requires HaveSecrets(s.cluster, names)
    ensures s'.cluster.secrets.Keys == s.cluster.secrets.Keys
    decreases |names|
  {
    if names == [] || s.err != Nil then s else
    var next := if keep.Some? && HasId(s.cluster, names[0], keep.value) then s
                else Noted(s, ClearMark(s.cluster, names[0]));
    assert forall i :: 0 <= i < |names[1..]| ==> names[1..][i] == names[i + 1];
    ClearedMarks(next, names[1..], keep)
  }

  /** One machine of the designation: it gets the mark when it has the id, and loses it otherwise. */
  function DesignatedOne(s: Sweep, m: string, id: string): Sweep
    requires m in s.cluster.secrets
  {
    if HasId(s.cluster, m, id) then
      var next := Noted(s, SetMark(s.cluster, m)).(found := true);
      if SetMark(s.cluster, m).err == Nil then next.(joinURL := s.cluster.secrets[m].annotations.joinURL) else next
    else Noted(s, ClearMark(s.cluster, m))
  }

  ghost function DesignatedMarks(s: Sweep, names: seq<string>, id: string): (s': Sweep)
    requires HaveSecrets(s.cluster, names)
    ensures s'.cluster.secrets.Keys == s.cluster.secrets.Keys
    decreases |names|
  {
    if names == [] || s.err != Nil then s else
    assert forall i :: 0 <= i < |names[1..]| ==> names[1..][i] == names[i + 1];
    DesignatedMarks(DesignatedOne(s, names[0], id), names[1..], id)
  }

  // ---------------------------------------------------------------- finding

  /** What findInitNode returns, with the cluster it leaves. */
  datatype Found = Found(cluster: Cluster, found: bool, joinURL: string, node: Option<string>, err: Err)

  function NotFound(c: Cluster, err: Err): Found {
    Found(c, false, "", None, err)
  }

  function URLOf(c: Cluster, m: string): string {
    if m in c.secrets then c.secrets[m].annotations.joinURL else ""
  }

  lemma EtcdHaveSecrets(c: Cluster, f: Filter)
    requires f == Etcd || f == PlanEntry.InitNode || f == CAN_BE_INIT_NODE || f.LabelledId?
    ensures HaveSecrets(c, Collected(c, f))
  {
    var names := Collected(c, f);
    forall i | 0 <= i < |names| ensures names[i] in c.secrets {
      assert names[i] in names;
      if f == CAN_BE_INIT_NODE {
        assert Matches(c, And(Etcd, Not(Deleting)), names[i]);
        assert Matches(c, Etcd, names[i]);
      }
    }
  }

  /** findAndDesignateFixedInitNode, for the machine id that the control plane is labelled with. */
  ghost function FixedInitNode(c: Cluster, id: string): Found {
    var entries := Collected(c, LabelledId(id));
    if |entries| != 1 then NotFound(c, Other) else
    var m := entries[0];
    assert m in entries;
    if c.secrets[m].labels.initNode != "true" then
      EtcdHaveSecrets(c, Etcd);
      var sweep := ClearedMarks(Start(c), Collected(c, Etcd), Some(id));
      if sweep.err != Nil then NotFound(sweep.cluster, sweep.err)
      else if sweep.changed then NotFound(sweep.cluster, Skip)
      else
        var marking := SetMark(sweep.cluster, m);
        Found(marking.cluster, true, c.secrets[m].annotations.joinURL, Some(m), marking.err)
    else Found(c, true, c.secrets[m].annotations.joinURL, Some(m), Nil)
  }

  /** There is a candidate with a join URL. */
  ghost predicate BetterExists(c: Cluster) {
    exists m :: m in c.machines && Matches(c, CAN_BE_INIT_NODE, m) && URLOf(c, m) != ""
  }

  ghost function FoundInitNode(c: Cluster, fixed: string): Found {
    if fixed != "" then FixedInitNode(c, fixed) else
    var current := Collected(c, PlanEntry.InitNode);
    if |current| > 1 then NotFound(c, Other)
    else if current == [] || !Matches(c, CAN_BE_INIT_NODE, current[0]) then NotFound(c, Other)
    else
      var m := current[0];
      if URLOf(c, m) != "" then Found(c, true, URLOf(c, m), Some(m), Nil)
      else Found(c, true, "", Some(m), if BetterExists(c) then Other else Nil)
  }

  // ---------------------------------------------------------------- electing

  datatype Election = Election(cluster: Cluster, joinURL: string, err: Err)

  /** The position of the first name with a join URL, or the number of names. */
  function FirstWithURL(c: Cluster, names: seq<string>): (i: nat)
    ensures i <= |names|
    ensures i < |names| ==> URLOf(c, names[i]) != ""
    ensures forall j :: 0 <= j < i ==> URLOf(c, names[j]) == ""
  {
    if names == [] || URLOf(c, names[0]) != "" then 0 else 1 + FirstWithURL(c, names[1..])
  }

  /** The vote among the candidates, once no mark is left: the first with a join URL, or else the first. */
  ghost function Vote(c: Cluster): Election {
    var candidates := Collected(c, CAN_BE_INIT_NODE);
    EtcdHaveSecrets(c, CAN_BE_INIT_NODE);
    var i := FirstWithURL(c, candidates);
    if i < |candidates| then
      var marking := SetMark(c, candidates[i]);
      Election(marking.cluster, URLOf(c, candidates[i]), marking.err)
    else if candidates != [] then
      var marking := SetMark(c, candidates[0]);
      Election(marking.cluster, "", marking.err)
    else Election(c, "", Waiting)
  }

  /** electInitNode. */
  ghost function Elected(c: Cluster, fixed: string, allowReelection: bool): Election {
    var f := FoundInitNode(c, fixed);
    if (f.found && f.err == Nil) || f.err == Skip then Election(f.cluster, f.joinURL, f.err)
    else if !f.found && fixed != "" then Election(f.cluster, "", Waiting)
    else
      var current := Collected(f.cluster, PlanEntry.InitNode);
      if current != [] && !allowReelection then Election(f.cluster, "", Waiting) else
      EtcdHaveSecrets(f.cluster, PlanEntry.InitNode);
      var sweep := ClearedMarks(Start(f.cluster), current, None);
      if sweep.err != Nil then Election(sweep.cluster, "", sweep.err)
      else if sweep.changed then Election(sweep.cluster, "", Skip)
      else Vote(sweep.cluster)
  }

  /** designateInitNodeByMachineID. */
  ghost function Designated(c: Cluster, id: string): Election {
    if id == "" then Election(c, "", Other) else
    EtcdHaveSecrets(c, Etcd);
    var sweep := DesignatedMarks(Start(c), Collected(c, Etcd), id);
    if sweep.err != Nil then Election(sweep.cluster, "", sweep.err)
    else if !sweep.found then Election(sweep.cluster, "", Other)
    else Election(sweep.cluster, sweep.joinURL, if sweep.changed then Skip else Nil)
  }

  // ---------------------------------------------------------------- the operations, on the plan store

  method WriteMark(store: PlanStore, m: string, mark: string) returns (err: Err)
    requires m in store.cluster.secrets
    modifies store
    ensures Change(store.cluster, err) == Marked(old(store.cluster), m, mark)
  {
    var s := store.cluster.secrets[m];
    assert WithMark(s, mark) == s.(labels := s.labels.(initNode := mark), annotations := s.annotations);
    var node;
    err, node := store.UpdateMetadata(m, None, s.labels.(initNode := mark), s.annotations);
    if err == Nil {
      return Skip;
    }
  }

  method ClearInitNodeMark(store: PlanStore, m: string) returns (err: Err)
    requires m in store.cluster.secrets
    modifies store
    ensures Change(store.cluster, err) == ClearMark(old(store.cluster), m)
  {
    if store.cluster.secrets[m].labels.initNode == "" {
      return Nil;
    }
    err := WriteMark(store, m, "");
  }

  method SetInitNodeMark(store: PlanStore, m: string) returns (err: Err)
    requires m in store.cluster.secrets
    modifies store
    ensures Change(store.cluster, err) == SetMark(old(store.cluster), m)
  {
    if store.cluster.secrets[m].labels.initNode == "true" {
      return Nil;
    }
    err := WriteMark(store, m, "true");
  }

  /** The loop that clears marks, with the machine to spare, if any. */
  method ClearInitNodeMarks(store: PlanStore, names: seq<string>, keep: Option<string>)
    returns (changed: bool, err: Err)
    requires HaveSecrets(store.cluster, names)
    modifies store
    ensures var s := ClearedMarks(Start(old(store.cluster)), names, keep);
      store.cluster == s.cluster && changed == s.changed && err == s.err
  {
    hide Reload;
    changed, err := false, Nil;
    ghost var c := store.cluster;
    assert names[0..] == names;
    for i := 0 to |names|
      invariant HaveSecrets(store.cluster, names[i..])
      invariant err == Nil
      invariant ClearedMarks(Start(c), names, keep) ==
                ClearedMarks(Sweep(store.cluster, changed, Nil, false, ""), names[i..], keep)
    {
      ghost var rest := names[i..];
      assert rest[0] == names[i] && rest[1..] == names[i + 1..];
      assert forall k :: 0 <= k < |rest[1..]| ==> rest[1..][k] == rest[k + 1];
      if keep.Some? && HasId(store.cluster, names[i], keep.value) {
        continue;
      }
      ghost var before := store.cluster;
      var e := ClearInitNodeMark(store, names[i]);
      if e == Skip {
        changed := true;
      } else if e != Nil {
        err := e;
        return;
      }
    }
    assert names[|names|..] == [];
  }

  method FindAndDesignateFixedInitNode(store: PlanStore, id: string)
    returns (found: bool, joinURL: string, node: Option<string>, err: Err)
    modifies store
    ensures Found(store.cluster, found, joinURL, node, err) == FixedInitNode(old(store.cluster), id)
  {
    var c := store.cluster;
    var entries := Collect(c, LabelledId(id));
    if |entries| > 1 {
      return false, "", None, Other;
    } else if |entries| == 0 {
      return false, "", None, Other;
    }
    var m := entries[0];
    assert m in entries;
    if c.secrets[m].labels.initNode != "true" {
      var all := Collect(c, Etcd);
      EtcdHaveSecrets(c, Etcd);
      var changed;
      changed, err := ClearInitNodeMarks(store, all, Some(id));
      if err != Nil {
        return false, "", None, err;
      }
      if changed {
        return false, "", None, Skip;
      }
      err := SetInitNodeMark(store, m);
      return true, c.secrets[m].annotations.joinURL, Some(m), err;
    }
    return true, c.secrets[m].annotations.joinURL, Some(m), Nil;
  }

  method FindInitNode(store: PlanStore, fixed: string)
    returns (found: bool, joinURL: string, node: Option<string>, err: Err)
    modifies store
    ensures Found(store.cluster, found, joinURL, node, err) == FoundInitNode(old(store.cluster), fixed)
  {
    if fixed != "" {
      found, joinURL, node, err := FindAndDesignateFixedInitNode(store, fixed);
      return;
    }
    var c := store.cluster;
    var current := Collect(c, PlanEntry.InitNode);
    if |current| > 1 {
      return false, "", None, Other;
    }
    found, node := false, None;
    if |current| == 1 && Matches(c, CAN_BE_INIT_NODE, current[0]) {
      found, node := true, Some(current[0]);
      if URLOf(c, current[0]) != "" {
        return true, URLOf(c, current[0]), node, Nil;
      }
    }
    if found {
      var possible := Collect(c, CAN_BE_INIT_NODE);
      for i := 0 to |possible|
        invariant forall k :: 0 <= k < i ==> URLOf(c, possible[k]) == ""
      {
        if URLOf(c, possible[i]) != "" {
          assert possible[i] in possible;
          return true, "", node, Other;
        }
      }
      assert forall m :: m in possible ==> URLOf(c, m) == "";
      return true, "", node, Nil;
    }
    return false, "", None, Other;
  }

  method ElectInitNode(store: PlanStore, fixed: string, allowReelection: bool) returns (joinURL: string, err: Err)
    modifies store
    ensures Election(store.cluster, joinURL, err) == Elected(old(store.cluster), fixed, allowReelection)
  {
    hide FoundInitNode, ClearedMarks, SetMark, Matches;
    var found, node;
    found, joinURL, node, err := FindInitNode(store, fixed);
    if (found && err == Nil) || err == Skip {
      return;
    } else if !found && fixed != "" {
      return "", Waiting;
    }
    var current := Collect(store.cluster, PlanEntry.InitNode);
    EtcdHaveSecrets(store.cluster, PlanEntry.InitNode);
    if |current| > 0 && !allowReelection {
      return "", Waiting;
    }
    var changed;
    changed, err := ClearInitNodeMarks(store, current, None);
    if err != Nil {
      return "", err;
    }
    if changed {
      return "", Skip;
    }
    joinURL, err := VoteForInitNode(store);
  }

  /** The last part of the election: the loop over the candidates. */
  method VoteForInitNode(store: PlanStore) returns (joinURL: string, err: Err)
    modifies store
    ensures Election(store.cluster, joinURL, err) == Vote(old(store.cluster))
  {
    hide SetMark, Matches;
    var c := store.cluster;
    var possible := Collect(c, CAN_BE_INIT_NODE);
    EtcdHaveSecrets(c, CAN_BE_INIT_NODE);
    for i := 0 to |possible|
      invariant store.cluster == c
      invariant forall k :: 0 <= k < i ==> URLOf(c, possible[k]) == ""
    {
      if URLOf(c, possible[i]) != "" {
        assert FirstWithURL(c, possible) == i;
        joinURL := URLOf(c, possible[i]);
        err := SetInitNodeMark(store, possible[i]);
        return;
      }
    }
    assert FirstWithURL(c, possible) == |possible|;
    if |possible| > 0 {
      joinURL := "";
      err := SetInitNodeMark(store, possible[0]);
      return;
    }
    return "", Waiting;
  }

  /** One machine of the designation; the error is never the skip error, which is noted in changed instead. */
  method DesignateOne(store: PlanStore, m: string, id: string, changed: bool, found: bool, joinURL: string)
    returns (changed': bool, found': bool, joinURL': string, err: Err)
    requires m in store.cluster.secrets
    modifies store
    ensures Sweep(store.cluster, changed', err, found', joinURL') ==
            DesignatedOne(Sweep(old(store.cluster), changed, Nil, found, joinURL), m, id)
    ensures store.cluster.secrets.Keys == old(store.cluster.secrets.Keys)
  {
    changed', found', joinURL' := changed, found, joinURL;
    if HasId(store.cluster, m, id) {
      found' := true;
      var url := store.cluster.secrets[m].annotations.joinURL;
      err := SetInitNodeMark(store, m);
      if err == Nil {
        joinURL' := url;
      }
    } else {
      err := ClearInitNodeMark(store, m);
    }
    if err == Skip {
      changed', err := true, Nil;
    }
  }

  method DesignateInitNodeByMachineID(store: PlanStore, id: string) returns (joinURL: string, err: Err)
    modifies store
    ensures Election(store.cluster, joinURL, err) == Designated(old(store.cluster), id)
  {
    hide DesignatedOne, Matches;
    if id == "" {
      return "", Other;
    }
    ghost var c := store.cluster;
    var names := Collect(store.cluster, Etcd);
    EtcdHaveSecrets(store.cluster, Etcd);
    var changed, found := false, false;
    joinURL := "";
    assert names[0..] == names;
    for i := 0 to |names|
      invariant HaveSecrets(store.cluster, names[i..])
      invariant DesignatedMarks(Start(c), names, id) ==
                DesignatedMarks(Sweep(store.cluster, changed, Nil, found, joinURL), names[i..], id)
    {
      ghost var rest := names[i..];
      assert rest[0] == names[i] && rest[1..] == names[i + 1..];
      assert forall k :: 0 <= k < |rest[1..]| ==> rest[1..][k] == rest[k + 1];
      changed, found, joinURL, err := DesignateOne(store, names[i], id, changed, found, joinURL);
      if err != Nil {
        return "", err;
      }
    }
    assert names[|names|..] == [];
    if !found {
      return "", Other;
    }
    return joinURL, if changed then Skip else Nil;
  }
}
