/** Choosing the server that a node joins. */
module Join {
  import opened Model
  import opened PlanEntry
  import opened Store
  import Names

  const MAX_UINT32 := 0xFFFF_FFFF

  type Uint32 = x: int | 0 <= x <= 0xFFFF_FFFF

  /** The top checksum counts as the one below it. */
  function Folded(ck: Uint32): (r: Uint32)
    ensures r < MAX_UINT32
  {
    if ck == MAX_UINT32 then ck - 1 else ck
  }

  /** The index of the server for a checksum. With at most 2^31 servers the product fits a 64-bit integer. */
  function ScaledIndex(ck: Uint32, n: nat): (i: nat)
    requires n > 0
    ensures i < n
    ensures n <= 0x8000_0000 ==> Folded(ck) * n < 0x8000_0000_0000_0000
  {
    ScaledInRange(Folded(ck), n);
    Folded(ck) * n / MAX_UINT32
  }

  lemma ScaledInRange(x: nat, n: nat)
    requires n > 0 && x < MAX_UINT32
    ensures 0 <= x * n / MAX_UINT32 < n
    ensures n <= 0x8000_0000 ==> x * n < 0x8000_0000_0000_0000
  {
    Product(x, n);
    DivBounds(x * n, MAX_UINT32);
    Monotone(n, x * n / MAX_UINT32, MAX_UINT32);
    Monotone(n, 0x8000_0000, x);
  }

  lemma Product(x: nat, n: nat)
    requires n > 0 && x < MAX_UINT32
    ensures 0 <= x * n < MAX_UINT32 * n
  {
  }

  lemma Monotone(a: int, b: int, k: nat)
    ensures a <= b ==> a * k <= b * k
  {
  }

  lemma DivBounds(a: int, k: int)
    requires k > 0
    ensures a / k * k <= a < (a / k + 1) * k
  {
  }

  lemma QuotientIs(a: int, k: int, q: int)
    requires k > 0 && q * k <= a < (q + 1) * k
    ensures a / k == q
  {
    DivBounds(a, k);
    Monotone(a / k + 1, q, k);
    Monotone(q + 1, a / k, k);
  }

  /** The index never falls when the checksum grows. */
  lemma ScaledMonotone(ck: Uint32, ck': Uint32, n: nat)
    requires n > 0 && ck <= ck'
    ensures ScaledIndex(ck, n) <= ScaledIndex(ck', n)
  {
    Monotone(Folded(ck), Folded(ck'), n);
    var a, b := Folded(ck) * n, Folded(ck') * n;
    DivBounds(a, MAX_UINT32);
    DivBounds(b, MAX_UINT32);
    Monotone(b / MAX_UINT32 + 1, a / MAX_UINT32, MAX_UINT32);
  }

  /** The first checksum that goes to server i. */
  function BucketStart(i: nat, n: nat): nat
    requires n > 0
  {
    (i * MAX_UINT32 + n - 1) / n
  }

  /** Server i gets exactly the checksums from its bucket's start up to the next one's. */
  lemma BucketIsInterval(ck: Uint32, i: nat, n: nat)
    requires n > 0 && ck < MAX_UINT32
    ensures ScaledIndex(ck, n) == i <==> BucketStart(i, n) <= ck < BucketStart(i + 1, n)
  {
    BucketEdge(ck, i, n);
    BucketEdge(ck, i + 1, n);
    var q := ScaledIndex(ck, n);
    DivBounds(ck * n, MAX_UINT32);
    Monotone(i + 1, q, MAX_UINT32);
    Monotone(q + 1, i, MAX_UINT32);
  }

  lemma BucketEdge(x: nat, i: nat, n: nat)
    requires n > 0
    ensures BucketStart(i, n) <= x <==> i * MAX_UINT32 <= x * n
  {
    var t := i * MAX_UINT32 + n - 1;
    DivBounds(t, n);
    var b := t / n;
    assert (b + 1) * n == b * n + n && (x + 1) * n == x * n + n;
    Monotone(b, x, n);
    Monotone(x + 1, b, n);
  }

  /** Below the top checksum the servers' buckets cover all checksums, and each holds floor(M/n) or one more of them. */
  lemma BucketsAreFair(i: nat, n: nat)
    requires n > 0 && i < n
    ensures BucketStart(0, n) == 0 && BucketStart(n, n) == MAX_UINT32
    ensures MAX_UINT32 / n <= BucketStart(i + 1, n) - BucketStart(i, n) <= MAX_UINT32 / n + 1
  {
    QuotientIs(n - 1, n, 0);
    assert n * MAX_UINT32 == MAX_UINT32 * n;
    assert (MAX_UINT32 + 1) * n == MAX_UINT32 * n + n;
    QuotientIs(n * MAX_UINT32 + n - 1, n, MAX_UINT32);
    var s, t := i * MAX_UINT32 + n - 1, (i + 1) * MAX_UINT32 + n - 1;
    assert t == s + MAX_UINT32;
    SumOfQuotients(s, MAX_UINT32, n);
  }

  lemma SumOfQuotients(a: nat, b: nat, n: nat)
    requires n > 0
    ensures b / n <= (a + b) / n - a / n <= b / n + 1
  {
    DivBounds(a, n);
    DivBounds(b, n);
    DivBounds(a + b, n);
    var qa, qb, q := a / n, b / n, (a + b) / n;
    assert (qa + qb) * n == qa * n + qb * n;
    assert (qa + qb + 2) * n == qa * n + qb * n + n + n;
    Monotone(q + 1, qa + qb, n);
    Monotone(qa + qb + 2, q, n);
  }

  // ---------------------------------------------------------------- join URLs

  /** The checksum of a machine's UID. */
  type Crc = string -> Uint32

  function JoinURLOf(c: Cluster, m: string): string {
    if m in c.secrets then c.secrets[m].annotations.joinURL else ""
  }

  ghost function CalculatedJoinURL(c: Cluster, m: string, crc: Crc): string
    requires m in c.machines
  {
    if Matches(c, InitNode, m) then "-" else
    var entries := Collected(c, JOINABLE_CONTROL_PLANE);
    if entries == [] then ""
    else JoinURLOf(c, entries[ScaledIndex(crc(c.machines[m].uid), |entries|)])
  }

  /** determineJoinURL; None is the error of finding no server. */
  ghost function DeterminedJoinURL(c: Cluster, m: string, node: Option<Node>, crc: Crc, joinURL: string): Option<string>
    requires m in c.machines
  {
    if !Matches(c, IS_ONLY_WORKER, m) then Some(joinURL)
    else if joinURL != "" then Some(joinURL)
    else if node.Some? && node.value.joinedTo != "" && ValidJoinURL(c, node.value.joinedTo) then
      Some(node.value.joinedTo)
    else
      var calculated := CalculatedJoinURL(c, m, crc);
      if calculated == "" then None else Some(calculated)
  }

  method DetermineJoinURL(c: Cluster, m: string, node: Option<Node>, crc: Crc, joinURL: string)
    returns (r: Option<string>)
    requires m in c.machines
    ensures r == DeterminedJoinURL(c, m, node, crc, joinURL)
  {
    if !Matches(c, IS_ONLY_WORKER, m) || joinURL != "" {
      return Some(joinURL);
    }
    if node.Some? && node.value.joinedTo != "" {
      var valid := false;
      var left := c.machines.Keys;
      while left != {} && !valid
        invariant left <= c.machines.Keys
        invariant valid ==> ValidJoinURL(c, node.value.joinedTo)
        invariant valid ||
          forall x | x in c.machines && x !in left :: !Offers(c, x, node.value.joinedTo)
        decreases |left|
      {
        var x :| x in left;
        left := left - {x};
        if Offers(c, x, node.value.joinedTo) {
          valid := true;
        }
      }
      if valid {
        return Some(node.value.joinedTo);
      }
    }
    if Matches(c, InitNode, m) {
      return Some("-");
    }
    var entries := Collect(c, JOINABLE_CONTROL_PLANE);
    if |entries| == 0 {
      return None;
    }
    var url := JoinURLOf(c, entries[ScaledIndex(crc(c.machines[m].uid), |entries|)]);
    return if url == "" then None else Some(url);
  }

  lemma JoinableOffers(c: Cluster, e: string)
    requires Matches(c, JOINABLE_CONTROL_PLANE, e)
    ensures JoinURLOf(c, e) != "" && Offers(c, e, JoinURLOf(c, e))
  {
    assert Matches(c, ControlPlane, e);
    assert Matches(c, And(HasJoinURL, Not(Deleting)), e);
    assert Matches(c, HasJoinURL, e) && Matches(c, Not(Deleting), e);
    assert Matches(c, Or(ControlPlane, InitNode), e);
  }

  lemma CalculatedIsValid(c: Cluster, m: string, crc: Crc)
    requires m in c.machines && !Matches(c, InitNode, m)
    ensures var url := CalculatedJoinURL(c, m, crc);
      && (url != "" ==> ValidJoinURL(c, url))
      && (url == "" <==> forall x :: x in c.machines ==> !Matches(c, JOINABLE_CONTROL_PLANE, x))
  {
    var entries := Collected(c, JOINABLE_CONTROL_PLANE);
    CollectedHead(c, JOINABLE_CONTROL_PLANE);
    if entries != [] {
      var e := entries[ScaledIndex(crc(c.machines[m].uid), |entries|)];
      assert e in entries;
      JoinableOffers(c, e);
    }
  }

  /** A worker that is not the init node is only ever sent to a server that is valid: it is not deleting, it is a
      control-plane or init node, and it has that URL. The answer is missing exactly when there is no recorded valid
      server and no control-plane node to join. */
  lemma WorkerJoinsValidServer(c: Cluster, m: string, node: Option<Node>, crc: Crc)
    requires m in c.machines && Matches(c, IS_ONLY_WORKER, m) && !Matches(c, InitNode, m)
    ensures var r := DeterminedJoinURL(c, m, node, crc, "");
      && (r.Some? ==> r.value != "" && ValidJoinURL(c, r.value))
      && (r.None? <==>
            && (node.None? || node.value.joinedTo == "" || !ValidJoinURL(c, node.value.joinedTo))
            && forall x :: x in c.machines ==> !Matches(c, JOINABLE_CONTROL_PLANE, x))
  {
    CalculatedIsValid(c, m, crc);
  }

  /** The machine can be joined at this URL. */
  predicate CanBeJoined(c: Cluster, m: string, url: string) {
    && m in c.machines && m in c.secrets && !c.machines[m].deleting && c.secrets[m].annotations.joinURL == url
    && (c.secrets[m].labels.controlPlane || c.secrets[m].labels.initNode == "true")
  }

  /** In terms of labels: a machine with the worker role alone that is not the init node, and that is not told whom to
      join, is only sent to a machine of the control plane, or to the init node, that can be joined. */
  lemma WorkerIsSentTo(c: Cluster, m: string, node: Option<Node>, crc: Crc)
    requires m in c.machines && m in c.secrets && c.secrets[m].labels.initNode != "true"
    requires var l := c.secrets[m].labels; l.worker && !l.etcd && !l.controlPlane
    ensures var r := DeterminedJoinURL(c, m, node, crc, "");
      r.Some? ==> r.value != "" && exists x :: CanBeJoined(c, x, r.value)
  {
    OnlyWorkerMeans(c, m);
    WorkerJoinsValidServer(c, m, node, crc);
    var r := DeterminedJoinURL(c, m, node, crc, "");
    if r.Some? {
      var x :| x in c.machines && Offers(c, x, r.value);
      OffersMeans(c, x, r.value);
      assert CanBeJoined(c, x, r.value);
    }
  }

  lemma OnlyWorkerMeans(c: Cluster, m: string)
    requires m in c.secrets
    ensures var l := c.secrets[m].labels;
      Matches(c, IS_ONLY_WORKER, m) <==> l.worker && !l.etcd && !l.controlPlane
  {
    NotMeans(c, Etcd, m);
    NotMeans(c, ControlPlane, m);
    AndMeans(c, Not(Etcd), Not(ControlPlane), m);
    AndMeans(c, And(Not(Etcd), Not(ControlPlane)), Worker, m);
  }

  /** Of the joinable control-plane machines, in name order, the one whose bucket holds the checksum is joined. */
  lemma ChecksumPicksServer(c: Cluster, m: string, crc: Crc, servers: seq<string>, i: nat)
    requires m in c.machines && !Matches(c, InitNode, m) && crc(c.machines[m].uid) < MAX_UINT32
    requires Names.Sorted(servers) && i < |servers|
    requires forall x :: x in servers <==> x in c.machines && x in c.secrets && c.secrets[x].labels.controlPlane &&
                                           c.secrets[x].annotations.joinURL != "" && !c.machines[x].deleting
    requires BucketStart(i, |servers|) <= crc(c.machines[m].uid) < BucketStart(i + 1, |servers|)
    ensures servers[i] in c.secrets && CalculatedJoinURL(c, m, crc) == c.secrets[servers[i]].annotations.joinURL
  {
    hide Matches, ScaledIndex, BucketStart;
    forall x ensures x in servers <==> x in c.machines && Matches(c, JOINABLE_CONTROL_PLANE, x) {
      JoinableMeans(c, x);
    }
    CollectedUnique(c, JOINABLE_CONTROL_PLANE, servers);
    BucketIsInterval(crc(c.machines[m].uid), i, |servers|);
    assert servers[i] in servers;
  }

  /** The recorded server stays the answer for as long as it is valid, whatever else changes in the cluster. */
  lemma RecordedServerSticks(c: Cluster, m: string, node: Node, crc: Crc, c': Cluster, crc': Crc)
    requires m in c.machines && Matches(c, IS_ONLY_WORKER, m)
    requires m in c'.machines && Matches(c', IS_ONLY_WORKER, m)
    requires DeterminedJoinURL(c, m, Some(node), crc, "").Some?
    ensures var url := DeterminedJoinURL(c, m, Some(node), crc, "").value;
      url != "" && ValidJoinURL(c', url) ==>
        DeterminedJoinURL(c', m, Some(node.(joinedTo := url)), crc', "") == Some(url)
  {
  }

  /** The server that a worker was given with its plan is the one that it is sent to in every later pass, as long as the
      secret is left alone and the server can be joined. */
  lemma GivenServerSticks(c: Cluster, m: string, node: Option<Node>, plan: NodePlan, url: string, c': Cluster, crc: Crc)
    requires m in c.secrets && url != "" && url != "-" && c.secrets[m].annotations.initNode != "true"
    requires PlanUpdate(c, m, node, plan, url, -1, 1).err == Nil
    requires Loaded(c') && m in c'.secrets
    requires c'.secrets[m] == PlanUpdate(c, m, node, plan, url, -1, 1).cluster.secrets[m]
    requires var l := c'.secrets[m].labels; l.worker && !l.etcd && !l.controlPlane
    requires exists x :: CanBeJoined(c', x, url)
    ensures m in c'.machines && DeterminedJoinURL(c', m, NodeOf(c', m), crc, "") == Some(url)
  {
    OnlyWorkerMeans(c', m);
    ReadsWhatIsThere(c'.secrets[m]);
    var x :| CanBeJoined(c', x, url);
    OffersMeans(c', x, url);
    assert Offers(c', x, url);
    assert NodeOf(c', m) == NodeFrom(SecretToNode(c'.secrets[m]));
    assert SecretToNode(c'.secrets[m]).Readable?;
    hide Matches, SecretToNode, CalculatedJoinURL;
  }
}
