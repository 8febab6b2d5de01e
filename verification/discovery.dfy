/**
 * File discovery: a depth-first walk over a directory tree that loads
 * (`require`s) every regular file the matcher accepts, skipping any entry
 * whose base name is ignored, together with everything below it.
 */
module Discovery {

  /** A file system path as its list of components; joining appends one. */
  type Path = seq<string>

  /** `FileDiscovery.IGNORE`. */
  const Ignore: set<string> := {"node_modules"}

  /** `path.basename`: the last component, "" for the empty path. */
  function Basename(p: Path): string {
    if p == [] then "" else p[|p| - 1]
  }

  /**
   * The file system below a path: a regular file, or a directory whose
   * entries are listed in directory-listing order.
   */
  datatype Entry = File | Directory(children: seq<Child>)
  datatype Child = Child(name: string, entry: Entry)

  /**
   * The ordered list of paths `_findRec(path)` loads when `e` is what lies
   * at `path`.
   */
  function Walk(path: Path, e: Entry, matches: Path -> bool): (r: seq<Path>)
    ensures Basename(path) in Ignore ==> r == []
    ensures forall k :: 0 <= k < |r| ==> matches(r[k]) && |path| <= |r[k]| && r[k][..|path|] == path
    decreases e, 1
  {
    if Basename(path) in Ignore then []
    else match e
      case File => if matches(path) then [path] else []
      case Directory(children) => WalkChildren(path, children, matches)
  }

  /** The loads of the children of the directory at `path`, one after the other. */
  function WalkChildren(path: Path, children: seq<Child>, matches: Path -> bool): (r: seq<Path>)
    ensures forall k :: 0 <= k < |r| ==> matches(r[k]) && |path| < |r[k]| && r[k][..|path|] == path
    decreases children, 0
  {
    if children == [] then []
    else
      var last := children[|children| - 1];
      var front := WalkChildren(path, children[..|children| - 1], matches);
      var back := Walk(path + [last.name], last.entry, matches);
      assert forall k :: 0 <= k < |back| ==> back[k][..|path|] == (path + [last.name])[..|path|];
      front + back
  }

  /** Every regular file below `path`, depth-first in listing order: the reference list. */
  function AllFiles(path: Path, e: Entry): (r: seq<Path>)
    ensures forall k :: 0 <= k < |r| ==> |path| <= |r[k]| && r[k][..|path|] == path
    decreases e, 1
  {
    match e
    case File => [path]
    case Directory(children) => AllFilesOf(path, children)
  }

  function AllFilesOf(path: Path, children: seq<Child>): (r: seq<Path>)
    ensures forall k :: 0 <= k < |r| ==> |path| < |r[k]| && r[k][..|path|] == path
    decreases children, 0
  {
    if children == [] then []
    else
      var last := children[|children| - 1];
      var front := AllFilesOf(path, children[..|children| - 1]);
      var back := AllFiles(path + [last.name], last.entry);
      assert forall k :: 0 <= k < |back| ==> back[k][..|path|] == (path + [last.name])[..|path|];
      front + back
  }

  /** The first component a walk started at `path` tests against `Ignore`. */
  function From(path: Path): nat {
    if path == [] then 0 else |path| - 1
  }

  /** No component of `p` from index `from` on is ignored. */
  predicate NoIgnored(p: Path, from: nat) {
    forall i :: from <= i < |p| ==> p[i] !in Ignore
  }

  /** The paths of `ps` that the matcher accepts and that have no ignored component from `from` on. */
  function Loadable(ps: seq<Path>, from: nat, matches: Path -> bool): seq<Path> {
    if ps == [] then []
    else
      var last := ps[|ps| - 1];
      Loadable(ps[..|ps| - 1], from, matches) + (if matches(last) && NoIgnored(last, from) then [last] else [])
  }

  lemma {:induction false} LoadableMembers(ps: seq<Path>, from: nat, matches: Path -> bool, p: Path)
    ensures p in Loadable(ps, from, matches) <==> p in ps && matches(p) && NoIgnored(p, from)
    decreases |ps|
  {
    if ps != [] {
      var init := ps[..|ps| - 1];
      LoadableMembers(init, from, matches, p);
      assert ps == init + [ps[|ps| - 1]];
    }
  }

  lemma {:induction false} LoadableAppend(a: seq<Path>, b: seq<Path>, from: nat, matches: Path -> bool)
    ensures Loadable(a + b, from, matches) == Loadable(a, from, matches) + Loadable(b, from, matches)
    decreases |b|
  {
    if b == [] {
      assert a + b == a;
    } else {
      var b' := b[..|b| - 1];
      assert (a + b)[..|a + b| - 1] == a + b';
      LoadableAppend(a, b', from, matches);
    }
  }

  /**
   * Filtering paths that all share a component at `from` which is not
   * ignored gives the same result when that component is not tested.
   */
  lemma {:induction false} LoadableSkipsSharedComponent(ps: seq<Path>, from: nat, name: string, matches: Path -> bool)
    requires name !in Ignore
    requires forall k :: 0 <= k < |ps| ==> from < |ps[k]| && ps[k][from] == name
    ensures Loadable(ps, from, matches) == Loadable(ps, from + 1, matches)
    decreases |ps|
  {
    if ps != [] {
      LoadableSkipsSharedComponent(ps[..|ps| - 1], from, name, matches);
      var last := ps[|ps| - 1];
      assert NoIgnored(last, from) <==> NoIgnored(last, from + 1) by {
        if NoIgnored(last, from + 1) {
          forall i | from <= i < |last| ensures last[i] !in Ignore {
            if i == from { assert last[i] == name; }
          }
        }
      }
    }
  }

  /** Filtering paths that all have an ignored component at `from` leaves nothing. */
  lemma {:induction false} LoadableDropsIgnored(ps: seq<Path>, from: nat, matches: Path -> bool)
    requires forall k :: 0 <= k < |ps| ==> from < |ps[k]| && ps[k][from] in Ignore
    ensures Loadable(ps, from, matches) == []
    decreases |ps|
  {
    if ps != [] {
      LoadableDropsIgnored(ps[..|ps| - 1], from, matches);
      assert !NoIgnored(ps[|ps| - 1], from);
    }
  }

  /**
   * The walk loads exactly the regular files below `path` that the matcher
   * accepts and that have no ignored component (the root's own name
   * included), in depth-first listing order. Files under an ignored
   * directory are never loaded, and the number of loads is the number of
   * such files.
   */
  lemma {:induction false} WalkIsFilteredListing(path: Path, e: Entry, matches: Path -> bool)
    ensures Walk(path, e, matches) == Loadable(AllFiles(path, e), From(path), matches)
    decreases e, 1
  {
    var all := AllFiles(path, e);
    if Basename(path) in Ignore {
      assert path != [];
      LoadableDropsIgnored(all, From(path), matches);
    } else {
      match e
      case File =>
        assert all == [path];
        assert Loadable(all, From(path), matches) == Loadable([], From(path), matches) + (if matches(path) && NoIgnored(path, From(path)) then [path] else []);
        assert NoIgnored(path, From(path));
      case Directory(children) =>
        WalkChildrenIsFilteredListing(path, children, matches);
    }
  }

  lemma {:induction false} WalkChildrenIsFilteredListing(path: Path, children: seq<Child>, matches: Path -> bool)
    requires Basename(path) !in Ignore
    ensures WalkChildren(path, children, matches) == Loadable(AllFilesOf(path, children), From(path), matches)
    decreases children, 0
  {
    if children != [] {
      var init := children[..|children| - 1];
      var last := children[|children| - 1];
      var child := path + [last.name];
      var front := AllFilesOf(path, init);
      var back := AllFiles(child, last.entry);
      WalkChildrenIsFilteredListing(path, init, matches);
      WalkIsFilteredListing(child, last.entry, matches);
      ChildWalkFrom(path, last.name, last.entry, matches);
      LoadableAppend(front, back, From(path), matches);
    }
  }

  /** The files below a child of `path` can be filtered from the parent's starting component. */
  lemma ChildWalkFrom(path: Path, name: string, e: Entry, matches: Path -> bool)
    requires Basename(path) !in Ignore
    ensures Loadable(AllFiles(path + [name], e), From(path + [name]), matches)
            == Loadable(AllFiles(path + [name], e), From(path), matches)
  {
    if path != [] {
      var child := path + [name];
      var back := AllFiles(child, e);
      forall k | 0 <= k < |back| ensures From(path) < |back[k]| && back[k][From(path)] == Basename(path) {
        assert back[k][..|child|] == child;
        assert back[k][From(path)] == back[k][..|child|][From(path)];
      }
      LoadableSkipsSharedComponent(back, From(path), Basename(path), matches);
    }
  }

  /**
   * Both directions of membership: `p` is loaded exactly when it is a
   * regular file below `path` that the matcher accepts and that has no
   * ignored component from the root's name on.
   */
  lemma LoadedIff(path: Path, e: Entry, matches: Path -> bool, p: Path)
    ensures p in Walk(path, e, matches) <==> p in AllFiles(path, e) && matches(p) && NoIgnored(p, From(path))
    ensures p in Walk(path, e, matches) ==> |path| <= |p| && p[..|path|] == path
  {
    WalkIsFilteredListing(path, e, matches);
    LoadableMembers(AllFiles(path, e), From(path), matches, p);
  }

  /**
   * `FileDiscovery`: the matcher and the root are fixed at construction;
   * `loaded` records the `require` calls made so far, in order.
   */
  class FileDiscovery {
    const initialPath: Path
    const matcher: Path -> bool
    var loaded: seq<Path>

    /** Construction only stores the two arguments: nothing is walked or loaded. */
    constructor (matcher: Path -> bool, initialPath: Path)
      ensures this.initialPath == initialPath && this.matcher == matcher
      ensures loaded == []
    {
      this.initialPath := initialPath;
      this.matcher := matcher;
      loaded := [];
    }

    /** `findFiles()`: walks the tree `root` found at the initial path. */
    method FindFiles(root: Entry)
      modifies this
      ensures loaded == old(loaded) + Walk(initialPath, root, matcher)
    {
      FindRec(initialPath, root);
    }

    /** `_findRec(targetPath)` with `e` the entry at `targetPath`. */
    method FindRec(targetPath: Path, e: Entry)
      modifies this
      ensures loaded == old(loaded) + Walk(targetPath, e, matcher)
      decreases e
    {
      if Basename(targetPath) in Ignore {
        return;
      }
      match e {
        case File =>
          if matcher(targetPath) {
            loaded := loaded + [targetPath];
          }
        case Directory(children) =>
          var i := 0;
          while i < |children|
            invariant 0 <= i <= |children|
            invariant loaded == old(loaded) + WalkChildren(targetPath, children[..i], matcher)
          {
            var child := children[i];
            assert child in children;
            FindRec(targetPath + [child.name], child.entry);
            assert children[..i + 1][..i] == children[..i];
            i := i + 1;
          }
          assert children[..i] == children;
      }
    }
  }
}
