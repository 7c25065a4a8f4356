/**
 The guard on the shadow output path, over a file tree with symbolic links. Paths are
 absolute and lexically clean: sequences of names, the empty sequence being the root.
 */
module OutputPath {
  import opened Wrappers

  type Path = seq<string>

  datatype FileNode =
    | Directory
    | Regular(inode: nat)
    | Link(absolute: bool, target: Path)
    | Special

  /** What is stored under each canonical path; the root is a directory and is not listed. */
  type Tree = map<Path, FileNode>

  const OUTPUT_NAME := "catalog-shadow.json"

  /** How many links a lookup follows before the system gives up. */
  const MAX_LINKS := 40

  datatype Place = At(path: Path) | Missing | Broken

  predicate CleanName(name: string) {
    name != "" && name != "." && name != ".."
  }

  predicate Clean(path: Path) {
    forall i :: 0 <= i < |path| ==> CleanName(path[i])
  }

  function Parent(path: Path): Path {
    if path == [] then [] else path[..|path| - 1]
  }

  /**
   Where `rest`, looked up from directory `dir`, leads when every link is followed. The
   last name may be missing: then its place is returned when `create` is set.
   */
  function Follow(tree: Tree, dir: Path, rest: Path, links: nat, create: bool): Place
    decreases links, |rest|
  {
    if rest == [] then At(dir)
    else if rest[0] == "." || rest[0] == "" then Follow(tree, dir, rest[1..], links, create)
    else if rest[0] == ".." then Follow(tree, Parent(dir), rest[1..], links, create)
    else
      var here := dir + [rest[0]];
      if here !in tree then (if create && |rest| == 1 then At(here) else Missing)
      else match tree[here]
        case Directory => Follow(tree, here, rest[1..], links, create)
        case Link(absolute, target) =>
          if links == 0 then Broken
          else Follow(tree, if absolute then [] else dir, target + rest[1..], links - 1, create)
        case _ => if |rest| == 1 then At(here) else Broken
  }

  datatype Lookup = Found(node: FileNode) | NotExist | Failed

  /** `os.Lstat`: links are followed up to the last name, but not there. */
  function Lstat(tree: Tree, path: Path): Lookup {
    if path == [] then Found(Directory) else
    match Follow(tree, [], Parent(path), MAX_LINKS, false)
    case Missing => NotExist
    case Broken => Failed
    case At(dir) =>
      if dir != [] && dir in tree && !tree[dir].Directory? then Failed
      else if dir + [path[|path| - 1]] in tree then Found(tree[dir + [path[|path| - 1]]])
      else NotExist
  }

  /** `os.Stat`: links are followed everywhere. */
  function Stat(tree: Tree, path: Path): Lookup {
    match Follow(tree, [], path, MAX_LINKS, false)
    case Missing => NotExist
    case Broken => Failed
    case At(p) => if p == [] then Found(Directory) else if p in tree then Found(tree[p]) else NotExist
  }

  predicate SameFile(a: Lookup, b: Lookup) {
    a.Found? && b.Found? && a.node.Regular? && b.node.Regular? && a.node.inode == b.node.inode
  }

  /** What one turn of the walk accepts. */
  predicate StepOk(tree: Tree, abs: Path, path: Path) {
    match Lstat(tree, path)
    case Failed => false
    case NotExist => path == abs
    case Found(node) => if path == abs then node.Regular? else node.Directory?
  }

  predicate Accepted(tree: Tree, base: Path, abs: Path) {
    && abs != base
    && (forall k :: 0 <= k <= |abs| ==> StepOk(tree, abs, abs[..k]))
    && !SameFile(Stat(tree, abs), Stat(tree, base))
  }

  /**
   The walk from the output up to the root. `outputName` is the last element of the path as
   given; `abs` and `baseAbs` are None when the working directory cannot be determined.
   */
  method CheckOutput(tree: Tree, baseGiven: bool, outputName: string, baseAbs: Option<Path>, outputAbs: Option<Path>)
    returns (ok: bool)
    ensures ok <==>
      && baseGiven && outputName == "catalog-shadow.json" && outputAbs.Some? && baseAbs.Some?
      && Accepted(tree, baseAbs.value, outputAbs.value)
  {
    if !baseGiven || outputName != OUTPUT_NAME || outputAbs.None? || baseAbs.None? || outputAbs.value == baseAbs.value {
      return false;
    }
    var abs := outputAbs.value;
    var path := abs;
    while true
      invariant |path| <= |abs| && path == abs[..|path|]
      invariant forall k :: |path| < k <= |abs| ==> StepOk(tree, abs, abs[..k])
      decreases |path|
    {
      var info := Lstat(tree, path);
      if info.Failed? || (info.NotExist? && path != abs) {
        assert !StepOk(tree, abs, abs[..|path|]);
        return false;
      }
      if info.Found? {
        if info.node.Link? || (path == abs && !info.node.Regular?) || (path != abs && !info.node.Directory?) {
          assert !StepOk(tree, abs, abs[..|path|]);
          return false;
        }
      }
      assert StepOk(tree, abs, abs[..|path|]);
      if path == Parent(path) {
        break;
      }
      assert Parent(path) == abs[..|path| - 1];
      path := Parent(path);
    }
    if SameFile(Stat(tree, abs), Stat(tree, baseAbs.value)) {
      return false;
    }
    return true;
  }

  // ---- what acceptance means -------------------------------------------------

  predicate PlainDirectory(tree: Tree, path: Path) {
    path == [] || (path in tree && tree[path] == Directory)
  }

  lemma {:induction false} FollowThroughDirectories(tree: Tree, path: Path, k: nat, links: nat, create: bool)
    requires Clean(path) && k <= |path|
    requires forall i :: 0 <= i < |path| ==> PlainDirectory(tree, path[..i])
    requires path == [] || path !in tree || (!tree[path].Link?)
    ensures Follow(tree, path[..k], path[k..], links, create) ==
              if path == [] || path in tree || create || k == |path| then At(path) else Missing
    decreases |path| - k
  {
    if k < |path| {
      assert path[..k] + [path[k]] == path[..k + 1];
      assert path[k..][1..] == path[k + 1..];
      if k + 1 < |path| {
        assert PlainDirectory(tree, path[..k + 1]);
        FollowThroughDirectories(tree, path, k + 1, links, create);
      } else {
        assert path[..k + 1] == path && path[k + 1..] == [];
      }
    } else {
      assert path[..k] == path && path[k..] == [];
    }
  }

  lemma FollowPlain(tree: Tree, path: Path, links: nat, create: bool)
    requires Clean(path)
    requires forall i :: 0 <= i < |path| ==> PlainDirectory(tree, path[..i])
    requires path == [] || path !in tree || (!tree[path].Link?)
    ensures Follow(tree, [], path, links, create) == if path == [] || path in tree || create then At(path) else Missing
  {
    assert path[..0] == [] && path[0..] == path;
    FollowThroughDirectories(tree, path, 0, links, create);
  }

  /** Once the parent is known to be reached plainly, Lstat looks at the path itself. */
  lemma LstatOfPlain(tree: Tree, path: Path)
    requires Clean(path) && path != []
    requires forall i :: 0 <= i < |path| ==> PlainDirectory(tree, path[..i])
    ensures Lstat(tree, path) == if path in tree then Found(tree[path]) else NotExist
  {
    var parent := Parent(path);
    assert parent == path[..|path| - 1] && PlainDirectory(tree, path[..|path| - 1]);
    forall i | 0 <= i < |parent| ensures PlainDirectory(tree, parent[..i]) {
      assert parent[..i] == path[..i];
    }
    FollowPlain(tree, parent, MAX_LINKS, false);
    assert parent + [path[|path| - 1]] == path;
  }

  lemma {:induction false} AncestorsArePlain(tree: Tree, abs: Path, k: nat)
    requires Clean(abs) && k <= |abs|
    requires forall i :: 0 <= i <= |abs| ==> StepOk(tree, abs, abs[..i])
    ensures forall i :: 0 <= i < k ==> PlainDirectory(tree, abs[..i])
  {
    if k > 0 {
      AncestorsArePlain(tree, abs, k - 1);
      var path := abs[..k - 1];
      if k > 1 {
        forall i | 0 <= i < |path| ensures PlainDirectory(tree, path[..i]) {
          assert path[..i] == abs[..i];
        }
        LstatOfPlain(tree, path);
        assert StepOk(tree, abs, abs[..k - 1]);
      }
    }
  }

  /**
   An accepted output path leads to itself: no link is followed on the way, every ancestor
   is a real directory, and its place holds a regular file or nothing.
   */
  lemma AcceptedResolvesToItself(tree: Tree, base: Path, abs: Path, links: nat)
    requires Clean(abs) && Accepted(tree, base, abs)
    ensures abs != [] && Follow(tree, [], abs, links, true) == At(abs)
    ensures forall i :: 0 <= i < |abs| ==> PlainDirectory(tree, abs[..i])
    ensures abs in tree ==> tree[abs].Regular?
  {
    assert StepOk(tree, abs, abs[..|abs|]) && abs[..|abs|] == abs;
    AncestorsArePlain(tree, abs, |abs|);
    LstatOfPlain(tree, abs);
    FollowPlain(tree, abs, links, true);
  }

  /** Accepted are exactly the places below real directories that hold a file other than the base, or nothing. */
  lemma AcceptedExactly(tree: Tree, base: Path, abs: Path)
    requires Clean(abs)
    ensures Accepted(tree, base, abs) <==>
              && abs != [] && abs != base
              && (forall i :: 0 <= i < |abs| ==> PlainDirectory(tree, abs[..i]))
              && (abs in tree ==> tree[abs].Regular? && Stat(tree, base) != Found(tree[abs]))
  {
    if Accepted(tree, base, abs) {
      AcceptedResolvesToItself(tree, base, abs, MAX_LINKS);
      FollowPlain(tree, abs, MAX_LINKS, false);
    } else if abs != [] && (forall i :: 0 <= i < |abs| ==> PlainDirectory(tree, abs[..i]))
      && (abs in tree ==> tree[abs].Regular?) {
      FollowPlain(tree, abs, MAX_LINKS, false);
      forall k | 0 <= k <= |abs| ensures StepOk(tree, abs, abs[..k]) {
        StepPasses(tree, abs, k);
      }
    }
  }

  lemma StepPasses(tree: Tree, abs: Path, k: nat)
    requires Clean(abs) && abs != [] && k <= |abs|
    requires forall i :: 0 <= i < |abs| ==> PlainDirectory(tree, abs[..i])
    requires abs in tree ==> tree[abs].Regular?
    ensures StepOk(tree, abs, abs[..k])
  {
    var path := abs[..k];
    if k > 0 {
      forall i | 0 <= i < k ensures PlainDirectory(tree, path[..i]) {
        assert path[..i] == abs[..i];
      }
      LstatOfPlain(tree, path);
      if k == |abs| {
        assert path == abs;
      }
    }
  }

  /** The base file lies elsewhere, whatever links lead to it. */
  lemma BaseIsElsewhere(tree: Tree, base: Path, abs: Path, place: Path)
    requires Clean(abs) && Accepted(tree, base, abs)
    requires Follow(tree, [], base, MAX_LINKS, false) == At(place) && place != [] && place in tree
              && tree[place].Regular?
    ensures place != abs
    ensures abs in tree ==> tree[abs].Regular? && tree[abs].inode != tree[place].inode
  {
    AcceptedResolvesToItself(tree, base, abs, MAX_LINKS);
    FollowPlain(tree, abs, MAX_LINKS, false);
  }

  /** Putting a regular file at a leaf disturbs no lookup that led to another regular file. */
  lemma {:induction false} FollowIgnoresLeaf(tree: Tree, leaf: Path, inode: nat, dir: Path, rest: Path, links: nat,
      place: Path)
    requires leaf != [] && (leaf in tree ==> tree[leaf].Regular?)
    requires Follow(tree, dir, rest, links, false) == At(place) && place != leaf
    ensures Follow(tree[leaf := Regular(inode)], dir, rest, links, false) == At(place)
    decreases links, |rest|
  {
    if rest != [] {
      if rest[0] == "." || rest[0] == "" {
        FollowIgnoresLeaf(tree, leaf, inode, dir, rest[1..], links, place);
      } else if rest[0] == ".." {
        FollowIgnoresLeaf(tree, leaf, inode, Parent(dir), rest[1..], links, place);
      } else {
        var here := dir + [rest[0]];
        if here in tree && here != leaf {
          match tree[here]
          case Directory => FollowIgnoresLeaf(tree, leaf, inode, here, rest[1..], links, place);
          case Link(absolute, target) =>
            FollowIgnoresLeaf(tree, leaf, inode, if absolute then [] else dir, target + rest[1..], links - 1, place);
          case _ =>
        }
      }
    }
  }

  /** A new file beside the output takes nothing away from its acceptance. */
  lemma NewSiblingKeepsAccepted(tree: Tree, base: Path, abs: Path, leaf: Path, inode: nat)
    requires Clean(abs) && Accepted(tree, base, abs)
    requires leaf !in tree && leaf != abs && |leaf| == |abs|
    requires Stat(tree, base).Found? && Stat(tree, base).node.Regular?
    ensures Accepted(tree[leaf := Regular(inode)], base, abs)
  {
    var after := tree[leaf := Regular(inode)];
    AcceptedResolvesToItself(tree, base, abs, MAX_LINKS);
    forall i | 0 <= i < |abs| ensures PlainDirectory(after, abs[..i]) {
      assert PlainDirectory(tree, abs[..i]);
    }
    forall k | 0 <= k <= |abs| ensures StepOk(after, abs, abs[..k]) {
      SameStep(tree, after, abs, k);
    }
    FollowPlain(tree, abs, MAX_LINKS, false);
    FollowPlain(after, abs, MAX_LINKS, false);
    var place := Follow(tree, [], base, MAX_LINKS, false).path;
    FollowIgnoresLeaf(tree, leaf, inode, [], base, MAX_LINKS, place);
    assert Stat(after, base) == Stat(tree, base);
    assert Stat(after, abs) == Stat(tree, abs);
  }

  lemma SameStep(tree: Tree, after: Tree, abs: Path, k: nat)
    requires Clean(abs) && k <= |abs| && StepOk(tree, abs, abs[..k])
    requires forall i :: 0 <= i < |abs| ==> PlainDirectory(tree, abs[..i]) && PlainDirectory(after, abs[..i])
    requires (abs in after) == (abs in tree) && (abs in tree ==> after[abs] == tree[abs])
    ensures StepOk(after, abs, abs[..k])
  {
    var path := abs[..k];
    if k > 0 {
      forall i | 0 <= i < k ensures path[..i] == abs[..i] {
      }
      assert Clean(path);
      LstatOfPlain(tree, path);
      LstatOfPlain(after, path);
      if k < |abs| {
        assert PlainDirectory(tree, path) && PlainDirectory(after, path);
      } else {
        assert path == abs;
      }
    }
  }

  /** A regular file at a fresh place disturbs no lookup that found a regular file. */
  lemma StatIgnoresLeaf(tree: Tree, leaf: Path, inode: nat, path: Path)
    requires leaf != [] && leaf !in tree
    requires Stat(tree, path).Found? && Stat(tree, path).node.Regular?
    ensures Stat(tree[leaf := Regular(inode)], path) == Stat(tree, path)
  {
    FollowIgnoresLeaf(tree, leaf, inode, [], path, MAX_LINKS, Follow(tree, [], path, MAX_LINKS, false).path);
  }
}
