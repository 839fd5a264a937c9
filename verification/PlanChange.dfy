/** Comparing an old plan with a new one: the restart stamp, whether to drain, and whether the change is minor. */
module PlanChange {
  import opened Model

  // ---------------------------------------------------------------- restart stamps

  /** The text before and after the first '=', or the whole text and nothing. */
  function Cut(env: string): (string, string) {
    if env == "" then ("", "")
    else if env[0] == '=' then ("", env[1..])
    else var (k, v) := Cut(env[1..]); ([env[0]] + k, v)
  }

  function StampInEnv(env: seq<string>): Option<string> {
    if env == [] then None else
    var (k, v) := Cut(env[0]);
    if k == "RESTART_STAMP" || k == "$env:RESTART_STAMP" then Some(v) else StampInEnv(env[1..])
  }

  function StampIn(instructions: seq<Instruction>): string {
    if instructions == [] then "" else
    match StampInEnv(instructions[0].env)
    case Some(v) => v
    case None => StampIn(instructions[1..])
  }

  function RestartStamp(plan: NodePlan): string {
    StampIn(plan.instructions)
  }

  predicate ShouldDrain(oldPlan: Option<NodePlan>, newPlan: NodePlan) {
    oldPlan.Some? && RestartStamp(oldPlan.value) != RestartStamp(newPlan)
  }

  /** The environment entry sets the restart stamp, by either of its two names. */
  ghost predicate Stamps(env: string, stamp: string) {
    || env == "RESTART_STAMP=" + stamp || env == "$env:RESTART_STAMP=" + stamp
    || (stamp == "" && (env == "RESTART_STAMP" || env == "$env:RESTART_STAMP"))
  }

  lemma {:induction false} CutMeans(env: string)
    ensures var (k, v) := Cut(env);
      '=' !in k && if '=' in env then env == k + "=" + v else k == env && v == ""
  {
    if env != "" && env[0] != '=' {
      CutMeans(env[1..]);
      assert env == [env[0]] + env[1..];
    }
  }

  lemma {:induction false} CutJoined(k: string, v: string)
    requires '=' !in k
    ensures Cut(k + "=" + v) == (k, v)
  {
    var whole := k + "=" + v;
    if k == "" {
      assert whole[1..] == v;
    } else {
      assert whole[1..] == k[1..] + "=" + v;
      CutJoined(k[1..], v);
      assert whole[0] == k[0] && k[0] in k && [k[0]] + k[1..] == k;
    }
  }

  lemma OneStamp(env: string, stamp: string)
    ensures StampInEnv([env]) == Some(stamp) <==> Stamps(env, stamp)
  {
    var (k, v) := Cut(env);
    assert StampInEnv([env][1..]) == None;
    CutMeans(env);
    CutJoined("RESTART_STAMP", stamp);
    CutJoined("$env:RESTART_STAMP", stamp);
    assert "RESTART_STAMP" + "=" + stamp == "RESTART_STAMP=" + stamp;
    assert "$env:RESTART_STAMP" + "=" + stamp == "$env:RESTART_STAMP=" + stamp;
    hide Cut;
  }

  /** The stamp that the entries set first. */
  ghost predicate FirstStamp(env: seq<string>, stamp: string) {
    exists j :: 0 <= j < |env| && Stamps(env[j], stamp) && forall i, v :: 0 <= i < j ==> !Stamps(env[i], v)
  }

  ghost predicate NoStamp(env: seq<string>) {
    forall i, v :: 0 <= i < |env| ==> !Stamps(env[i], v)
  }

  lemma {:induction false} StampInEnvMeans(env: seq<string>)
    ensures StampInEnv(env).None? <==> NoStamp(env)
    ensures StampInEnv(env).Some? ==> FirstStamp(env, StampInEnv(env).value)
  {
    hide Stamps, Cut;
    if env != [] {
      var e, rest := env[0], env[1..];
      assert env == [e] + rest;
      assert forall i :: 0 <= i < |rest| ==> rest[i] == env[i + 1];
      StampInEnvMeans(rest);
      HeadStamp(env);
      forall v ensures StampInEnv([e]) == Some(v) <==> Stamps(e, v) { OneStamp(e, v); }
      if StampInEnv([e]).Some? {
        assert Stamps(env[0], StampInEnv([e]).value);
      } else {
        if StampInEnv(rest).Some? {
          var j :| 0 <= j < |rest| && Stamps(rest[j], StampInEnv(rest).value) &&
                   forall i, v :: 0 <= i < j ==> !Stamps(rest[i], v);
          forall i, v | 0 <= i < j + 1 ensures !Stamps(env[i], v) {
            if i > 0 { assert env[i] == rest[i - 1]; }
          }
          assert Stamps(env[j + 1], StampInEnv(rest).value);
        }
        if NoStamp(rest) {
          forall i, v | 0 <= i < |env| ensures !Stamps(env[i], v) {
            if i > 0 { assert env[i] == rest[i - 1]; }
          }
        }
      }
    }
  }

  lemma HeadStamp(env: seq<string>)
    requires env != []
    ensures StampInEnv(env) == if StampInEnv([env[0]]).Some? then StampInEnv([env[0]]) else StampInEnv(env[1..])
  {
    assert [env[0]][1..] == [];
  }

  /** The restart stamp of a plan is the one that its instructions set first, or empty when none sets any. */
  lemma {:induction false} RestartStampMeans(instructions: seq<Instruction>)
    ensures
      || (StampIn(instructions) == "" && forall k :: 0 <= k < |instructions| ==> NoStamp(instructions[k].env))
      || exists k :: 0 <= k < |instructions| && FirstStamp(instructions[k].env, StampIn(instructions)) &&
                     forall j :: 0 <= j < k ==> NoStamp(instructions[j].env)
  {
    hide FirstStamp, NoStamp, StampInEnv;
    if instructions != [] {
      var rest := instructions[1..];
      StampInEnvMeans(instructions[0].env);
      RestartStampMeans(rest);
      assert forall j :: 0 <= j < |rest| ==> rest[j] == instructions[j + 1];
      if StampInEnv(instructions[0].env).Some? {
        assert FirstStamp(instructions[0].env, StampIn(instructions));
      } else if k :| 0 <= k < |rest| && FirstStamp(rest[k].env, StampIn(rest)) &&
                     forall j :: 0 <= j < k ==> NoStamp(rest[j].env) {
        assert FirstStamp(instructions[k + 1].env, StampIn(instructions));
        forall j | 0 <= j < k + 1 ensures NoStamp(instructions[j].env) {
          if j > 0 { assert instructions[j] == rest[j - 1]; }
        }
      } else {
        forall j | 0 <= j < |instructions| ensures NoStamp(instructions[j].env) {
          if j > 0 { assert instructions[j] == rest[j - 1]; }
        }
      }
    }
  }

  // ---------------------------------------------------------------- minor changes

  predicate SameButFiles(p: NodePlan, q: NodePlan) {
    p.instructions == q.instructions && p.periodic == q.periodic && p.probes == q.probes && p.error == q.error
  }

  /** The files by path; of several files with one path the last one counts. */
  function ByPath(files: seq<File>): map<string, File> {
    if files == [] then map[] else
    var rest := ByPath(files[1..]);
    if files[0].path in rest then rest else rest[files[0].path := files[0]]
  }

  /** Walks the old files and strikes out the new files that they match; None when a major file is gone. */
  function Struck(olds: seq<File>, news: map<string, File>): Option<map<string, File>> {
    if olds == [] then Some(news) else
    var f := olds[0];
    if f.path in news then
      Struck(olds[1..], if f.content == news[f.path].content then news - {f.path} else news)
    else if !f.minor then None
    else Struck(olds[1..], news)
  }

  predicate AllMinor(files: map<string, File>) {
    forall p :: p in files ==> files[p].minor
  }

  predicate MinorChange(p: NodePlan, q: NodePlan) {
    && SameButFiles(p, q)
    && !(p.files == [] && q.files == [])
    && var left := Struck(p.files, ByPath(q.files));
       left.Some? && left.value != map[] && AllMinor(left.value)
  }

  lemma {:induction false} ByPathAppend(files: seq<File>, f: File)
    ensures ByPath(files + [f]) == ByPath(files)[f.path := f]
  {
    if files == [] {
    } else {
      ByPathAppend(files[1..], f);
      assert (files + [f])[1..] == files[1..] + [f];
    }
  }

  method MinorPlanChangeDetected(oldPlan: NodePlan, newPlan: NodePlan) returns (minor: bool)
    ensures minor == MinorChange(oldPlan, newPlan)
  {
    if oldPlan.instructions != newPlan.instructions || oldPlan.periodic != newPlan.periodic ||
       oldPlan.probes != newPlan.probes || oldPlan.error != newPlan.error {
      return false;
    }
    if |oldPlan.files| == 0 && |newPlan.files| == 0 {
      return false;
    }
    var newFiles: map<string, File> := map[];
    for i := 0 to |newPlan.files|
      invariant newFiles == ByPath(newPlan.files[..i])
    {
      assert newPlan.files[..i + 1] == newPlan.files[..i] + [newPlan.files[i]];
      ByPathAppend(newPlan.files[..i], newPlan.files[i]);
      newFiles := newFiles[newPlan.files[i].path := newPlan.files[i]];
    }
    assert newPlan.files[..|newPlan.files|] == newPlan.files;
    for i := 0 to |oldPlan.files|
      invariant Struck(oldPlan.files, ByPath(newPlan.files)) == Struck(oldPlan.files[i..], newFiles)
    {
      var oldFile := oldPlan.files[i];
      assert oldPlan.files[i..][0] == oldFile && oldPlan.files[i..][1..] == oldPlan.files[i + 1..];
      if oldFile.path in newFiles {
        if oldFile.content == newFiles[oldFile.path].content {
          newFiles := newFiles - {oldFile.path};
        }
      } else {
        if !oldFile.minor {
          return false;
        }
      }
    }
    if |newFiles| > 0 {
      var left := newFiles.Keys;
      while left != {}
        invariant left <= newFiles.Keys
        invariant forall p :: p in newFiles && p !in left ==> newFiles[p].minor
        decreases |left|
      {
        var p :| p in left;
        if !newFiles[p].minor {
          return false;
        }
        left := left - {p};
      }
      return true;
    }
    return false;
  }

  // ---------------------------------------------------------------- what the detection means

  ghost predicate Same(f: File, g: File) {
    f.path == g.path && f.content == g.content
  }

  /** The file at this path is new, or no old file at the path has its content. */
  ghost predicate Altered(olds: seq<File>, news: map<string, File>, path: string) {
    path in news && forall i :: 0 <= i < |olds| ==> olds[i].path == path ==> olds[i].content != news[path].content
  }

  /** The old file at j is still there: its path occurs among the new files, and no earlier old file has used it up. */
  ghost predicate Present(olds: seq<File>, news: map<string, File>, j: nat)
    requires j < |olds|
  {
    && olds[j].path in news
    && forall i :: 0 <= i < j ==> olds[i].path == olds[j].path ==> olds[i].content != news[olds[j].path].content
  }

  /** Every old file is minor or still there. */
  ghost predicate NoMajorLost(olds: seq<File>, news: map<string, File>) {
    forall j :: 0 <= j < |olds| ==> olds[j].minor || Present(olds, news, j)
  }

  ghost predicate AlteredAreMinor(olds: seq<File>, news: map<string, File>) {
    forall path :: Altered(olds, news, path) ==> news[path].minor
  }

  lemma {:induction false} StruckMeans(olds: seq<File>, news: map<string, File>)
    ensures Struck(olds, news).Some? <==> NoMajorLost(olds, news)
    ensures Struck(olds, news).Some? ==>
      forall p :: p in Struck(olds, news).value <==> Altered(olds, news, p)
    ensures Struck(olds, news).Some? ==>
      forall p :: p in Struck(olds, news).value ==> p in news && Struck(olds, news).value[p] == news[p]
  {
    if olds == [] {
      assert forall p :: p in news <==> Altered(olds, news, p);
    } else {
      var f, rest := olds[0], olds[1..];
      var news' := if f.path in news && f.content == news[f.path].content then news - {f.path} else news;
      StruckMeans(rest, news');
      assert olds == [f] + rest;
      forall j | 0 <= j < |rest| ensures Present(olds, news, j + 1) <==> Present(rest, news', j) {
        if Present(rest, news', j) {
          forall i | 0 <= i < j + 1 && olds[i].path == olds[j + 1].path
            ensures olds[i].content != news[olds[j + 1].path].content
          {
            if i > 0 { assert rest[i - 1] == olds[i]; }
          }
        }
        if Present(olds, news, j + 1) {
          assert olds[0] == f;
          forall i | 0 <= i < j && rest[i].path == rest[j].path
            ensures rest[i].content != news'[rest[j].path].content
          {
            assert olds[i + 1] == rest[i];
          }
        }
      }
      forall p ensures Altered(olds, news, p) <==> Altered(rest, news', p) {
        if Altered(rest, news', p) {
          forall i | 0 <= i < |olds| && olds[i].path == p ensures olds[i].content != news[p].content {
            if i > 0 { assert rest[i - 1] == olds[i]; }
          }
        }
        if Altered(olds, news, p) {
          assert olds[0] == f;
          forall i | 0 <= i < |rest| && rest[i].path == p ensures rest[i].content != news'[p].content {
            assert olds[i + 1] == rest[i];
          }
        }
      }
      if f.path in news || f.minor {
        assert Struck(olds, news) == Struck(rest, news');
        assert olds[0].minor || Present(olds, news, 0);
        assert forall j :: 0 < j < |olds| ==> olds[j] == rest[j - 1];
        if forall j :: 0 <= j < |rest| ==> rest[j].minor || Present(rest, news', j) {
          forall j | 0 <= j < |olds| ensures olds[j].minor || Present(olds, news, j) {
            if j > 0 { assert rest[j - 1].minor || Present(rest, news', j - 1); }
          }
        }
        if forall j :: 0 <= j < |olds| ==> olds[j].minor || Present(olds, news, j) {
          forall j | 0 <= j < |rest| ensures rest[j].minor || Present(rest, news', j) {
            assert olds[j + 1].minor || Present(olds, news, j + 1);
          }
        }
      } else {
        assert !(olds[0].minor || Present(olds, news, 0));
      }
    }
  }

  /** For every pair of plans: the change is minor exactly when all but the files agree, every old file is minor or
      present, every new or altered file is minor, and there is one. */
  lemma MinorChangeMeans(p: NodePlan, q: NodePlan)
    ensures var news := ByPath(q.files);
      MinorChange(p, q) <==>
        && SameButFiles(p, q)
        && NoMajorLost(p.files, news)
        && AlteredAreMinor(p.files, news)
        && (exists path :: Altered(p.files, news, path))
  {
    hide Struck, Present, Altered, NoMajorLost;
    var news := ByPath(q.files);
    StruckMeans(p.files, news);
    NoFilesNoneAltered(p, q);
    var left := Struck(p.files, news);
    if left.Some? {
      if AllMinor(left.value) {
        forall path | Altered(p.files, news, path) ensures news[path].minor {
          assert path in left.value;
        }
      } else {
        var path :| path in left.value && !left.value[path].minor;
        assert Altered(p.files, news, path) && !news[path].minor;
      }
      if left.value != map[] {
        var path :| path in left.value;
        assert Altered(p.files, news, path);
      }
    }
  }

  lemma NoFilesNoneAltered(p: NodePlan, q: NodePlan)
    ensures forall path :: Altered(p.files, ByPath(q.files), path) ==> path in ByPath(q.files)
    ensures q.files == [] ==> forall path :: !Altered(p.files, ByPath(q.files), path)
  {
  }

  ghost predicate UniquePaths(files: seq<File>) {
    forall i, j :: 0 <= i < j < |files| ==> files[i].path != files[j].path
  }

  lemma {:induction false} ByPathUnique(files: seq<File>)
    requires UniquePaths(files)
    ensures forall i :: 0 <= i < |files| ==> files[i].path in ByPath(files) && ByPath(files)[files[i].path] == files[i]
    ensures forall path :: path in ByPath(files) ==> exists i :: 0 <= i < |files| && files[i].path == path
  {
    if files == [] {
    } else {
      var rest := files[1..];
      ByPathUnique(rest);
      assert forall i :: 0 <= i < |rest| ==> rest[i] == files[i + 1];
      assert files[0].path !in ByPath(rest);
      forall i | 0 <= i < |files| ensures files[i].path in ByPath(files) && ByPath(files)[files[i].path] == files[i] {
        if i > 0 { assert rest[i - 1] == files[i]; }
      }
      forall path | path in ByPath(files) ensures exists i :: 0 <= i < |files| && files[i].path == path {
        if path == files[0].path {
        } else {
          var i :| 0 <= i < |rest| && rest[i].path == path;
          assert files[i + 1].path == path;
        }
      }
    }
  }

  ghost predicate Removed(f: File, news: seq<File>) {
    forall i :: 0 <= i < |news| ==> news[i].path != f.path
  }

  ghost predicate AddedOrChanged(g: File, olds: seq<File>) {
    forall i :: 0 <= i < |olds| ==> !Same(olds[i], g)
  }

  /** With unique paths on both sides: every removed file is minor, every added or changed file is minor, and at least
      one was added or changed. */
  lemma MinorChangeOfUniquePaths(p: NodePlan, q: NodePlan)
    requires UniquePaths(p.files) && UniquePaths(q.files)
    ensures MinorChange(p, q) <==>
      && SameButFiles(p, q)
      && (forall i :: 0 <= i < |p.files| && Removed(p.files[i], q.files) ==> p.files[i].minor)
      && (forall i :: 0 <= i < |q.files| && AddedOrChanged(q.files[i], p.files) ==> q.files[i].minor)
      && (exists i :: 0 <= i < |q.files| && AddedOrChanged(q.files[i], p.files))
  {
    var news := ByPath(q.files);
    MinorChangeMeans(p, q);
    ByPathUnique(q.files);
    forall j | 0 <= j < |p.files| ensures Present(p.files, news, j) <==> !Removed(p.files[j], q.files) {
      if !Removed(p.files[j], q.files) {
        var i :| 0 <= i < |q.files| && q.files[i].path == p.files[j].path;
        assert q.files[i].path in news;
      }
    }
    forall i | 0 <= i < |q.files|
      ensures AddedOrChanged(q.files[i], p.files) <==> Altered(p.files, news, q.files[i].path)
    {
      assert news[q.files[i].path] == q.files[i];
    }
    forall path | Altered(p.files, news, path)
      ensures exists i :: 0 <= i < |q.files| && q.files[i].path == path && AddedOrChanged(q.files[i], p.files)
    {
      var i :| 0 <= i < |q.files| && q.files[i].path == path;
      assert AddedOrChanged(q.files[i], p.files);
    }
  }

  /** The unique-path reading fails when an old plan lists a major file twice: nothing is removed and a minor file is
      added, yet the second copy is taken for a removed major file. */
  lemma DuplicatePathsLoseMinorChange(p: NodePlan, q: NodePlan, f: File, g: File)
    requires !f.minor && g.minor && f.path != g.path
    requires p.files == [f, f] && q.files == [f, g] && SameButFiles(p, q)
    ensures !MinorChange(p, q)
    ensures forall i :: 0 <= i < |p.files| ==> !Removed(p.files[i], q.files)
    ensures AddedOrChanged(g, p.files) && !AddedOrChanged(f, p.files)
  {
    assert q.files[0] == f && p.files[0] == f;
    var news := ByPath(q.files);
    assert q.files[1..] == [g] && [g][1..] == [];
    assert ByPath([g]) == map[g.path := g];
    assert news == map[g.path := g, f.path := f];
    assert p.files[1..] == [f];
    assert Struck(p.files, news) == Struck([f], news - {f.path});
  }

  lemma {:induction false} StruckByItself(files: seq<File>, news: map<string, File>)
    requires forall p :: p in news ==> p in ByPath(files) && news[p] == ByPath(files)[p]
    ensures Struck(files, news).None? || Struck(files, news).value == map[]
  {
    if files == [] {
      assert news == map[];
    } else {
      var f := files[0];
      var news' := if f.path in news && f.content == news[f.path].content then news - {f.path} else news;
      forall p | p in news' ensures p in ByPath(files[1..]) && news'[p] == ByPath(files[1..])[p] {
        assert p in news;
      }
      StruckByItself(files[1..], news');
    }
  }

  /** For every pair of plans, a minor change is a change, and it never calls for a drain. */
  lemma MinorChangeNeverDrains(p: NodePlan, q: NodePlan)
    requires MinorChange(p, q)
    ensures p != q
    ensures RestartStamp(p) == RestartStamp(q) && !ShouldDrain(Some(p), q)
  {
    if p == q {
      StruckByItself(p.files, ByPath(q.files));
      assert false;
    }
  }
}
