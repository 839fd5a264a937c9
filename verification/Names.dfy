/** Machine names, their order, and the sorted list of a set of names. */
module Names {

  /** Byte-wise string order. */
  predicate Less(a: string, b: string) {
    b != [] && (a == [] || a[0] < b[0] || (a[0] == b[0] && Less(a[1..], b[1..])))
  }

  lemma {:induction false} LessIrreflexive(a: string)
    ensures !Less(a, a)
  {
    if a != [] { LessIrreflexive(a[1..]); }
  }

  lemma {:induction false} LessTransitive(a: string, b: string, c: string)
    requires Less(a, b) && Less(b, c)
    ensures Less(a, c)
  {
    if a != [] && a[0] == b[0] == c[0] {
      LessTransitive(a[1..], b[1..], c[1..]);
    }
  }

  lemma {:induction false} LessTotal(a: string, b: string)
    ensures a == b || Less(a, b) || Less(b, a)
  {
    if a != [] && b != [] && a[0] == b[0] {
      LessTotal(a[1..], b[1..]);
      assert a == [a[0]] + a[1..] && b == [b[0]] + b[1..];
    }
  }

  ghost predicate Sorted(xs: seq<string>) {
    forall i, j :: 0 <= i < j < |xs| ==> Less(xs[i], xs[j])
  }

  ghost function Elements(xs: seq<string>): set<string> {
    set x | x in xs
  }

  ghost predicate NoDuplicates(xs: seq<string>) {
    forall i, j :: 0 <= i < j < |xs| ==> xs[i] != xs[j]
  }

  lemma SortedHasNoDuplicates(xs: seq<string>)
    requires Sorted(xs)
    ensures NoDuplicates(xs)
  {
    forall i, j | 0 <= i < j < |xs| ensures xs[i] != xs[j] {
      LessIrreflexive(xs[i]);
    }
  }

  ghost predicate IsLeast(m: string, s: set<string>) {
    m in s && forall x :: x in s ==> x == m || Less(m, x)
  }

  lemma {:induction false} LeastExists(s: set<string>)
    requires s != {}
    ensures exists m :: IsLeast(m, s)
  {
    var m :| m in s;
    var rest := s - {m};
    if rest == {} {
      assert s == {m};
      assert IsLeast(m, s);
    } else {
      LeastExists(rest);
      var n :| IsLeast(n, rest);
      LessTotal(m, n);
      if Less(m, n) {
        forall x | x in rest ensures Less(m, x) {
          if x != n { LessTransitive(m, n, x); }
        }
        assert IsLeast(m, s);
      } else {
        assert IsLeast(n, s);
      }
    }
  }

  /** The least name of a set. */
  ghost function Least(s: set<string>): (m: string)
    requires s != {}
    ensures IsLeast(m, s)
  {
    LeastExists(s);
    var m :| IsLeast(m, s);
    m
  }

  /** The names of s in increasing order. */
  ghost function InOrder(s: set<string>): (xs: seq<string>)
    ensures Sorted(xs)
    ensures Elements(xs) == s
  {
    if s == {} then [] else
      var m := Least(s);
      var rest := InOrder(s - {m});
      assert forall i :: 0 <= i < |rest| ==> rest[i] in Elements(rest);
      assert Elements([m] + rest) == {m} + Elements(rest) by { ElementsCons(m, rest); }
      [m] + rest
  }

  lemma ElementsCons(m: string, rest: seq<string>)
    ensures Elements([m] + rest) == {m} + Elements(rest)
  {
  }

  /** A sorted list is determined by its elements, so the order a map is walked in cannot show. */
  lemma {:induction false} SortedUnique(xs: seq<string>, ys: seq<string>)
    requires Sorted(xs) && Sorted(ys)
    requires Elements(xs) == Elements(ys)
    ensures xs == ys
  {
    if xs == [] {
      assert forall i :: 0 <= i < |ys| ==> ys[i] in Elements(ys);
    } else {
      assert xs[0] in Elements(xs);
      assert ys != [];
      assert ys[0] in Elements(ys);
      if xs[0] != ys[0] {
        var i :| 0 <= i < |ys| && ys[i] == xs[0];
        var j :| 0 <= j < |xs| && xs[j] == ys[0];
        assert Less(ys[0], xs[0]) && Less(xs[0], ys[0]);
        LessTransitive(xs[0], ys[0], xs[0]);
        LessIrreflexive(xs[0]);
        assert false;
      }
      SortedHasNoDuplicates(xs);
      SortedHasNoDuplicates(ys);
      var xt, yt := xs[1..], ys[1..];
      assert Elements(xt) == Elements(xs) - {xs[0]} by { ElementsTail(xs); }
      assert Elements(yt) == Elements(ys) - {ys[0]} by { ElementsTail(ys); }
      SortedUnique(xt, yt);
      assert xs == [xs[0]] + xt && ys == [ys[0]] + yt;
    }
  }

  lemma ElementsTail(xs: seq<string>)
    requires xs != [] && NoDuplicates(xs)
    ensures Elements(xs[1..]) == Elements(xs) - {xs[0]}
  {
    forall x | x in Elements(xs) - {xs[0]} ensures x in Elements(xs[1..]) {
      var i :| 0 <= i < |xs| && xs[i] == x;
      assert xs[1..][i - 1] == x;
    }
    forall x | x in Elements(xs[1..]) ensures x in Elements(xs) - {xs[0]} {
      var i :| 0 <= i < |xs[1..]| && xs[1..][i] == x;
      assert xs[i + 1] == x;
    }
  }

  lemma Singleton(xs: seq<string>, x: string)
    requires NoDuplicates(xs) && x in xs && forall y :: y in xs ==> y == x
    ensures xs == [x]
  {
    assert xs[0] in xs && xs[|xs| - 1] in xs;
  }

  /** Insertion into a sorted list. */
  method Insert(xs: seq<string>, x: string) returns (ys: seq<string>)
    requires Sorted(xs) && x !in xs
    ensures Sorted(ys)
    ensures Elements(ys) == Elements(xs) + {x}
  {
    var i := 0;
    while i < |xs| && Less(xs[i], x)
      invariant 0 <= i <= |xs|
      invariant forall k :: 0 <= k < i ==> Less(xs[k], x)
    {
      i := i + 1;
    }
    ys := xs[..i] + [x] + xs[i..];
    if i < |xs| {
      LessTotal(xs[i], x);
      forall k | i <= k < |xs| ensures Less(x, xs[k]) {
        if k > i { LessTransitive(x, xs[i], xs[k]); }
      }
    }
    forall a, b | 0 <= a < b < |ys| ensures Less(ys[a], ys[b]) {
      var sa := if a < i then a else if a == i then -1 else a - 1;
      var sb := if b < i then b else if b == i then -1 else b - 1;
    }
    assert ys[i] == x;
    forall z | z in Elements(xs) ensures z in Elements(ys) {
      var k :| 0 <= k < |xs| && xs[k] == z;
      assert ys[if k < i then k else k + 1] == z;
    }
  }

  /** Sorts a list without duplicates; the result is the ordered list of its elements. */
  method Sort(xs: seq<string>) returns (ys: seq<string>)
    requires NoDuplicates(xs)
    ensures ys == InOrder(Elements(xs))
  {
    ys := [];
    for i := 0 to |xs|
      invariant Sorted(ys)
      invariant Elements(ys) == Elements(xs[..i])
    {
      assert xs[i] !in xs[..i];
      assert xs[i] !in Elements(ys);
      ys := Insert(ys, xs[i]);
      assert xs[..i + 1] == xs[..i] + [xs[i]];
    }
    assert xs[..|xs|] == xs;
    SortedUnique(ys, InOrder(Elements(xs)));
  }
}
