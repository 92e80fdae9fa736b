/** Absolute paths as the browser pane handles them: joining a name, "up", and breadcrumbs. */
module Paths {
  import opened Text

  /** A path that starts with '/', never repeats a '/', and ends with one only if it is the root. */
  predicate Clean(p: string) {
    && p != "" && p[0] == '/'
    && (p == "/" || p[|p| - 1] != '/')
    && forall i :: 0 <= i < |p| - 1 && p[i] == '/' ==> p[i + 1] != '/'
  }

  predicate IsName(n: string) {
    n != "" && '/' !in n
  }

  predicate AreNames(names: seq<string>) {
    forall i :: 0 <= i < |names| ==> IsName(names[i])
  }

  /** filepath.Join of a clean directory and an entry name. */
  function Join(dir: string, name: string): string {
    if dir == "/" then "/" + name else dir + "/" + name
  }

  /** The path made of `names`, outermost first. */
  function Render(names: seq<string>): string {
    if names == [] then "/" else Join(Render(names[..|names| - 1]), names[|names| - 1])
  }

  /** The string split at every '/', as JavaScript's split does. */
  function Split(s: string): seq<string>
    decreases |s|
  {
    var i := LastIndexOf(s, '/');
    if i == -1 then [s] else Split(s[..i]) + [s[i + 1..]]
  }

  /** The parent the "up" button goes to. */
  function Parent(cwd: string): string {
    if cwd == "/" then cwd else
      var i := LastIndexOf(cwd, '/');
      var head := if i == -1 then "" else cwd[..i];
      if head == "" then "/" else head
  }

  // ---------- Clean paths are exactly the rendered name lists ----------

  lemma JoinIsClean(dir: string, name: string)
    requires Clean(dir) && IsName(name)
    ensures Clean(Join(dir, name)) && Join(dir, name) != "/"
  {
    var base := if dir == "/" then "" else dir;
    var p := Join(dir, name);
    assert p == base + "/" + name;
    assert name[|name| - 1] in name && name[0] in name;
    forall k | 0 <= k < |p| - 1 && p[k] == '/' ensures p[k + 1] != '/' {
      if k < |base| {
        assert p[k] == dir[k];
      } else {
        assert p[k + 1] == name[k - |base|] && name[k - |base|] in name;
      }
    }
  }

  /** The last '/' of a joined path is the one the join added. */
  lemma JoinSplits(dir: string, name: string)
    requires Clean(dir) && IsName(name)
    ensures var p, base := Join(dir, name), if dir == "/" then "" else dir;
      LastIndexOf(p, '/') == |base| && p[..|base|] == base && p[|base| + 1..] == name
  {
    var base := if dir == "/" then "" else dir;
    assert Join(dir, name) == base + ['/'] + name;
    LastIndexIs(base, '/', name);
  }

  lemma {:induction false} RenderIsClean(names: seq<string>)
    requires AreNames(names)
    ensures Clean(Render(names))
  {
    if names != [] {
      RenderIsClean(names[..|names| - 1]);
      JoinIsClean(Render(names[..|names| - 1]), names[|names| - 1]);
    }
  }

  /** Taking a clean path apart at its last '/'. */
  lemma CleanSplits(p: string) returns (dir: string, name: string)
    requires Clean(p) && p != "/"
    ensures Clean(dir) && IsName(name) && p == Join(dir, name) && dir == Parent(p) && |dir| < |p|
  {
    var i := LastIndexOf(p, '/');
    assert '/' in p;
    name := p[i + 1..];
    dir := if i == 0 then "/" else p[..i];
    assert p == p[..i] + "/" + name;
    if i > 0 {
      assert p[i - 1] != '/';
      assert dir != "/" by { assert dir[i - 1] == p[i - 1]; }
    }
  }

  lemma {:induction false} CleanIsRendered(p: string) returns (names: seq<string>)
    requires Clean(p)
    ensures AreNames(names) && p == Render(names)
    decreases |p|
  {
    if p == "/" {
      names := [];
    } else {
      var dir, name := CleanSplits(p);
      var front := CleanIsRendered(dir);
      names := front + [name];
      assert names[..|names| - 1] == front;
    }
  }

  lemma SplitOfJoined(dir: string, name: string)
    requires Clean(dir) && IsName(name)
    ensures Split(Join(dir, name)) == (if dir == "/" then Split("") else Split(dir)) + [name]
  {
    JoinSplits(dir, name);
  }

  lemma NamesSnoc(names: seq<string>)
    requires names != []
    ensures [""] + names == [""] + names[..|names| - 1] + [names[|names| - 1]]
  {
  }

  lemma SplitStep(names: seq<string>)
    requires AreNames(names) && names != []
    ensures var front := names[..|names| - 1];
      Split(Render(names)) == (if front == [] then [""] else Split(Render(front))) + [names[|names| - 1]]
  {
    var front, name := names[..|names| - 1], names[|names| - 1];
    RenderIsClean(front);
    SplitOfJoined(Render(front), name);
    if front != [] {
      RenderedIsNotRoot(front);
    }
  }

  lemma {:induction false} SplitOfRendered(names: seq<string>)
    requires AreNames(names) && names != []
    ensures Split(Render(names)) == [""] + names
  {
    SplitStep(names);
    NamesSnoc(names);
    if |names| > 1 {
      SplitOfRendered(names[..|names| - 1]);
    }
  }

  lemma RenderedIsNotRoot(names: seq<string>)
    requires AreNames(names) && names != []
    ensures Render(names) != "/"
  {
    RenderIsClean(names[..|names| - 1]);
    JoinIsClean(Render(names[..|names| - 1]), names[|names| - 1]);
  }

  // ---------- Up ----------

  /** "up" undoes entering an entry, for every directory and every entry name. */
  lemma UpUndoesEntering(dir: string, name: string)
    requires Clean(dir) && IsName(name)
    ensures Parent(Join(dir, name)) == dir
  {
    JoinIsClean(dir, name);
    JoinSplits(dir, name);
  }

  lemma UpShortens(p: string)
    requires Clean(p) && p != "/"
    ensures Clean(Parent(p)) && |Parent(p)| < |p|
  {
    var dir, name := CleanSplits(p);
  }

  /** Where `k` presses of "up" lead. */
  function UpTimes(p: string, k: nat): string {
    if k == 0 then p else Parent(UpTimes(p, k - 1))
  }

  // ---------- Breadcrumbs ----------

  datatype Crumb = Crumb(path: string, title: string)

  function EndsWith(s: string, suffix: string): bool {
    |s| >= |suffix| && s[|s| - |suffix|..] == suffix
  }

  /** One step of the map: the accumulated path after visiting part `i`. */
  function NextAcc(acc: string, p: string, i: nat): string {
    var next := if i == 0 then "/" else if EndsWith(acc, "/") then acc + p else acc + "/" + p;
    if next != "/" && EndsWith(next, "//") then "/" else next
  }

  /** The trail for the path made of `names`: the root, then one crumb a name, each leading to
      the path that ends with that name. */
  function Trail(names: seq<string>): (trail: seq<Crumb>)
    ensures |trail| == |names| + 1
    ensures trail[|names|].path == Render(names)
  {
    if names == [] then [Crumb("/", "/")]
    else Trail(names[..|names| - 1]) + [Crumb(Render(names), names[|names| - 1])]
  }

  /** Crumb by crumb: the root, then each name in turn, leading to the path that ends with it. */
  lemma {:induction false} TrailIs(names: seq<string>)
    ensures Trail(names)[0] == Crumb("/", "/")
    ensures forall i :: 1 <= i <= |names| ==> Trail(names)[i] == Crumb(Render(names[..i]), names[i - 1])
  {
    if names != [] {
      var n := |names| - 1;
      TrailIs(names[..n]);
      forall i | 1 <= i <= |names| ensures Trail(names)[i] == Crumb(Render(names[..i]), names[i - 1]) {
        if i <= n {
          assert names[..n][..i] == names[..i];
        } else {
          assert names[..i] == names;
        }
      }
    }
  }

  lemma NextAccJoins(dir: string, name: string, i: nat)
    requires Clean(dir) && IsName(name) && i > 0
    ensures NextAcc(dir, name, i) == Join(dir, name)
    ensures Join(dir, name) != "//"
  {
    JoinIsClean(dir, name);
    var p := Join(dir, name);
    EndsWithChar(dir, "/");
    EndsWithChar(p, "//");
    assert name[|name| - 1] in name;
    assert p[|p| - 1] == name[|name| - 1];
  }

  lemma EndsWithChar(s: string, suffix: string)
    requires suffix != ""
    ensures EndsWith(s, suffix) ==> s != "" && s[|s| - 1] == suffix[|suffix| - 1]
  {
  }

  lemma PartsOfRendered(names: seq<string>)
    requires AreNames(names)
    ensures (if Render(names) == "/" then [""] else Split(Render(names))) == [""] + names
  {
    if names != [] {
      SplitOfRendered(names);
      RenderedIsNotRoot(names);
    }
  }

  lemma TrailGrows(names: seq<string>, i: nat)
    requires AreNames(names) && i < |names|
    ensures IsName(names[i]) && Clean(Render(names[..i]))
    ensures Render(names[..i + 1]) == Join(Render(names[..i]), names[i])
    ensures Trail(names[..i + 1]) == Trail(names[..i]) + [Crumb(Render(names[..i + 1]), names[i])]
  {
    assert names[..i + 1][..i] == names[..i];
    RenderIsClean(names[..i]);
  }

  /** One turn of the accumulation: the path reached, which is never "//", and the crumb it adds. */
  lemma CrumbAt(names: seq<string>, i: nat, acc: string, p: string)
    requires AreNames(names) && i <= |names| && p == ([""] + names)[i]
    requires i > 0 ==> acc == Render(names[..i - 1])
    ensures NextAcc(acc, p, i) == Render(names[..i]) && NextAcc(acc, p, i) != "//"
    ensures i == 0 ==> Trail(names[..0]) == [Crumb(NextAcc(acc, p, i), "/")] && p == ""
    ensures i > 0 ==> p != "" && Trail(names[..i]) == Trail(names[..i - 1]) + [Crumb(NextAcc(acc, p, i), p)]
  {
    if i > 0 {
      assert p == names[i - 1];
      TrailGrows(names, i - 1);
      NextAccJoins(acc, p, i);
    }
  }

  /** The breadcrumbs, accumulated part by part. */
  method Crumbs(cwd: string, ghost names: seq<string>) returns (crumbs: seq<Crumb>)
    requires AreNames(names) && cwd == Render(names)
    ensures crumbs == Trail(names)
    ensures |crumbs| == |names| + 1 && crumbs[0] == Crumb("/", "/")
    ensures forall i :: 1 <= i <= |names| ==> crumbs[i].path == Render(names[..i]) && crumbs[i].title == names[i - 1]
  {
    var parts := if cwd == "/" then [""] else Split(cwd);
    PartsOfRendered(names);
    var acc := "";
    crumbs := [];
    for i := 0 to |parts|
      invariant i == 0 ==> crumbs == []
      invariant i > 0 ==> acc == Render(names[..i - 1]) && crumbs == Trail(names[..i - 1])
    {
      var p := parts[i];
      CrumbAt(names, i, acc, p);
      acc := NextAcc(acc, p, i);
      var title := if p == "" then "/" else p;
      crumbs := crumbs + [Crumb(if acc == "//" then "/" else acc, title)];
    }
    assert names[..|names|] == names;
    TrailIs(names);
  }

  lemma ParentOfRendered(names: seq<string>)
    requires AreNames(names) && names != []
    ensures Parent(Render(names)) == Render(names[..|names| - 1])
  {
    RenderIsClean(names[..|names| - 1]);
    UpUndoesEntering(Render(names[..|names| - 1]), names[|names| - 1]);
  }

  lemma UpFromRendered(names: seq<string>, k: nat)
    requires AreNames(names) && names != [] && k > 0
    ensures UpTimes(Render(names), k) == UpTimes(Render(names[..|names| - 1]), k - 1)
  {
    ParentOfRendered(names);
    UpTimesShift(Render(names), k - 1);
  }

  lemma CrumbOfPrefix(names: seq<string>, i: nat)
    requires names != [] && i < |names|
    ensures Trail(names)[i] == Trail(names[..|names| - 1])[i]
  {
  }

  /** For every clean path: pressing "up" `k` times lands on the crumb `k` places before the
      last one, which is the path itself; the root is reached after one press a name. */
  lemma {:induction false} UpWalksTheCrumbs(names: seq<string>, k: nat)
    requires AreNames(names) && k <= |names|
    ensures UpTimes(Render(names), k) == Trail(names)[|names| - k].path
  {
    if k > 0 {
      UpFromRendered(names, k);
      CrumbOfPrefix(names, |names| - k);
      UpWalksTheCrumbs(names[..|names| - 1], k - 1);
    }
  }

  lemma {:induction false} FirstCrumbIsRoot(names: seq<string>)
    requires AreNames(names)
    ensures Trail(names)[0] == Crumb("/", "/")
    ensures UpTimes(Render(names), |names|) == "/"
  {
    UpWalksTheCrumbs(names, |names|);
    if names != [] {
      FirstCrumbIsRoot(names[..|names| - 1]);
    }
  }

  lemma {:induction false} UpTimesShift(p: string, k: nat)
    ensures UpTimes(p, k + 1) == UpTimes(Parent(p), k)
  {
    if k > 0 {
      UpTimesShift(p, k - 1);
    }
  }
}
