/** The processes attributed to the submitted sample (src/sandbox_infra/qemu/win_detonate.py,
    `_sample_tree`): a root set grown along parent links until nothing changes. */
module SampleTree {
  import opened Wrappers

  /** One process record; the record of a process nobody reported a parent for has none. */
  datatype Proc = Proc(pid: string, ppid: Option<string>, image: string, cmdline: string, loaded: seq<string>)

  /** How the sample was launched, and the text tests the root rule uses: lower-casing, and the
      pattern for an exact loader command line. */
  datatype Launch = Launch(package: string, architecture: string, name: string,
                           lower: string -> string, launches: string -> bool)
  {
    function Path(): string {
      lower("C:\\task\\" + name)
    }
  }

  function Loader(l: Launch): string {
    if l.architecture == "x86" then "c:\\windows\\syswow64\\rundll32.exe"
    else "c:\\windows\\system32\\rundll32.exe"
  }

  /** An executable is its own root; a library is a root only as the exact loader with the exact
      command line and with the library among its loaded images. */
  predicate IsRoot(l: Launch, p: Proc) {
    if l.package == "dll" then
      && l.lower(p.image) == Loader(l) && l.launches(p.cmdline)
      && exists i | 0 <= i < |p.loaded| :: l.lower(p.loaded[i]) == l.Path()
    else l.lower(p.image) == l.Path()
  }

  predicate IsLink(ps: seq<Proc>, parent: string, child: string) {
    exists i | 0 <= i < |ps| :: ps[i].pid == child && ps[i].ppid == Some(parent)
  }

  predicate IsRootPid(l: Launch, ps: seq<Proc>, pid: string) {
    exists i | 0 <= i < |ps| :: ps[i].pid == pid && IsRoot(l, ps[i])
  }

  /** A path of parent links from a root to `pid`. */
  predicate IsPath(l: Launch, ps: seq<Proc>, path: seq<string>, pid: string)
    decreases |path|
  {
    path != [] && path[|path| - 1] == pid &&
    if |path| == 1 then IsRootPid(l, ps, pid)
    else IsLink(ps, path[|path| - 2], pid) && IsPath(l, ps, path[..|path| - 1], path[|path| - 2])
  }

  ghost predicate Reached(l: Launch, ps: seq<Proc>, pid: string) {
    exists path :: IsPath(l, ps, path, pid)
  }

  lemma RootIsReached(l: Launch, ps: seq<Proc>, pid: string)
    requires IsRootPid(l, ps, pid)
    ensures Reached(l, ps, pid)
  {
    assert IsPath(l, ps, [pid], pid);
  }

  lemma ChildIsReached(l: Launch, ps: seq<Proc>, parent: string, child: string)
    requires Reached(l, ps, parent) && IsLink(ps, parent, child)
    ensures Reached(l, ps, child)
  {
    var path :| IsPath(l, ps, path, parent);
    var longer := path + [child];
    assert longer[..|longer| - 1] == path;
    assert IsPath(l, ps, longer, child);
  }

  /** A set that holds the roots and is closed under parent links. */
  ghost predicate Closed(l: Launch, ps: seq<Proc>, tree: set<string>) {
    && (forall pid :: IsRootPid(l, ps, pid) ==> pid in tree)
    && (forall parent, child :: parent in tree && IsLink(ps, parent, child) ==> child in tree)
  }

  lemma {:induction false} ReachedIsInClosed(l: Launch, ps: seq<Proc>, tree: set<string>, path: seq<string>,
                                             pid: string)
    requires Closed(l, ps, tree) && IsPath(l, ps, path, pid)
    ensures pid in tree
    decreases |path|
  {
    if |path| > 1 {
      ReachedIsInClosed(l, ps, tree, path[..|path| - 1], path[|path| - 2]);
    }
  }

  method RootPids(l: Launch, ps: seq<Proc>) returns (tree: set<string>)
    ensures forall pid :: pid in tree <==> IsRootPid(l, ps, pid)
  {
    tree := {};
    for i := 0 to |ps|
      invariant forall pid :: pid in tree <==> exists k | 0 <= k < i :: ps[k].pid == pid && IsRoot(l, ps[k])
    {
      if IsRoot(l, ps[i]) {
        tree := tree + {ps[i].pid};
      }
    }
  }

  ghost function Pids(ps: seq<Proc>): set<string> {
    set i | 0 <= i < |ps| :: ps[i].pid
  }

  lemma PidIsIn(ps: seq<Proc>, i: nat)
    requires i < |ps|
    ensures ps[i].pid in Pids(ps)
  {
  }

  /** One pass over the records, adding the children of what is already in the tree. */
  method GrowOnce(l: Launch, ps: seq<Proc>, before: set<string>) returns (tree: set<string>, grew: bool)
    requires before <= Pids(ps) && forall pid | pid in before :: Reached(l, ps, pid)
    ensures before <= tree && (grew <==> tree != before)
    ensures forall pid | pid in tree :: Reached(l, ps, pid)
    ensures tree <= Pids(ps)
    ensures !grew ==> forall k | 0 <= k < |ps| :: ps[k].ppid.Some? && ps[k].ppid.value in tree ==> ps[k].pid in tree
  {
    hide Reached, Pids;
    tree, grew := before, false;
    for i := 0 to |ps|
      invariant before <= tree && (grew <==> tree != before)
      invariant forall pid | pid in tree :: Reached(l, ps, pid)
      invariant tree <= Pids(ps)
      invariant !grew ==> forall k | 0 <= k < i :: ps[k].ppid.Some? && ps[k].ppid.value in tree ==> ps[k].pid in tree
    {
      var p := ps[i];
      if p.ppid.Some? && p.ppid.value in tree && p.pid !in tree {
        assert IsLink(ps, p.ppid.value, p.pid);
        ChildIsReached(l, ps, p.ppid.value, p.pid);
        PidIsIn(ps, i);
        tree := tree + {p.pid};
        grew := true;
      }
    }
  }

  /** The tree is exactly the pids a path of parent links leads to from a root, cycles or not. */
  method SampleTreeOf(l: Launch, ps: seq<Proc>) returns (tree: set<string>)
    ensures forall pid :: pid in tree <==> Reached(l, ps, pid)
  {
    hide IsRoot, Reached, Pids;
    tree := RootPids(l, ps);
    forall pid | pid in tree ensures Reached(l, ps, pid) && pid in Pids(ps) {
      RootIsReached(l, ps, pid);
      var i :| 0 <= i < |ps| && ps[i].pid == pid && IsRoot(l, ps[i]);
      PidIsIn(ps, i);
    }
    var grew := true;
    while grew
      invariant tree <= Pids(ps)
      invariant forall pid :: pid in tree ==> Reached(l, ps, pid)
      invariant forall pid :: IsRootPid(l, ps, pid) ==> pid in tree
      invariant !grew ==> forall k | 0 <= k < |ps| :: ps[k].ppid.Some? && ps[k].ppid.value in tree ==> ps[k].pid in tree
      decreases |Pids(ps) - tree|, grew
    {
      ghost var before := tree;
      tree, grew := GrowOnce(l, ps, tree);
      if grew {
        FewerLeft(Pids(ps), before, tree);
      }
    }
    ClosedIsEnough(l, ps, tree);
  }

  lemma ClosedIsEnough(l: Launch, ps: seq<Proc>, tree: set<string>)
    requires forall pid :: IsRootPid(l, ps, pid) ==> pid in tree
    requires forall k | 0 <= k < |ps| :: ps[k].ppid.Some? && ps[k].ppid.value in tree ==> ps[k].pid in tree
    ensures forall pid | Reached(l, ps, pid) :: pid in tree
  {
    hide IsRootPid, IsPath;
    assert Closed(l, ps, tree);
    forall pid | Reached(l, ps, pid) ensures pid in tree {
      var path :| IsPath(l, ps, path, pid);
      ReachedIsInClosed(l, ps, tree, path, pid);
    }
  }

  lemma FewerLeft(pids: set<string>, before: set<string>, after: set<string>)
    requires before < after <= pids
    ensures |pids - after| < |pids - before|
  {
    var left := pids - after;
    var x :| x in after && x !in before;
    assert left + {x} <= pids - before;
    Smaller(left + {x}, pids - before);
  }

  lemma Smaller(a: set<string>, b: set<string>)
    requires a <= b
    ensures |a| <= |b|
  {
    assert b == a + (b - a);
  }

  /** The tree depends on which records there are, not on their order or repetition. */
  lemma OrderDoesNotMatter(l: Launch, ps: seq<Proc>, qs: seq<Proc>, pid: string)
    requires forall p :: p in ps <==> p in qs
    ensures Reached(l, ps, pid) <==> Reached(l, qs, pid)
  {
    if path :| IsPath(l, ps, path, pid) {
      SamePath(l, ps, qs, path, pid);
    }
    if path :| IsPath(l, qs, path, pid) {
      SamePath(l, qs, ps, path, pid);
    }
  }

  lemma {:induction false} SamePath(l: Launch, ps: seq<Proc>, qs: seq<Proc>, path: seq<string>, pid: string)
    requires forall p :: p in ps ==> p in qs
    requires IsPath(l, ps, path, pid)
    ensures IsPath(l, qs, path, pid)
    decreases |path|
  {
    hide IsRoot;
    if |path| == 1 {
      var i :| 0 <= i < |ps| && ps[i].pid == pid && IsRoot(l, ps[i]);
      assert ps[i] in qs;
    } else {
      var i :| 0 <= i < |ps| && ps[i].pid == pid && ps[i].ppid == Some(path[|path| - 2]);
      assert ps[i] in qs;
      SamePath(l, ps, qs, path[..|path| - 1], path[|path| - 2]);
    }
  }

  /** Nothing is attributed to the sample exactly when no process is a root. */
  lemma NoRootNoTree(l: Launch, ps: seq<Proc>)
    ensures (exists pid :: Reached(l, ps, pid)) <==> exists i | 0 <= i < |ps| :: IsRoot(l, ps[i])
  {
    hide IsRoot;
    if pid :| Reached(l, ps, pid) {
      var path :| IsPath(l, ps, path, pid);
      PathStartsAtRoot(l, ps, path, pid);
    }
    if i :| 0 <= i < |ps| && IsRoot(l, ps[i]) {
      RootIsReached(l, ps, ps[i].pid);
    }
  }

  lemma {:induction false} PathStartsAtRoot(l: Launch, ps: seq<Proc>, path: seq<string>, pid: string)
    requires IsPath(l, ps, path, pid)
    ensures exists i | 0 <= i < |ps| :: IsRoot(l, ps[i])
    decreases |path|
  {
    hide IsRoot;
    if |path| > 1 {
      PathStartsAtRoot(l, ps, path[..|path| - 1], path[|path| - 2]);
    }
  }
}
