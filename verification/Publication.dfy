/** One run of the catalog client: from the snapshot to the published candidate. */
module Publication {
  import opened Wrappers
  import opened Json
  import opened Generation
  import opened Freshness
  import opened OutputPath
  import Shadow

  /** Contents of a regular file: a decoded config, or anything that is not one. */
  datatype Content = Config(config: Object) | Other

  /** Which of the system calls that may fail do fail. */
  datatype Faults = Faults(create: bool, write: bool, flush: bool, chmod: bool, rename: bool, remove: bool)

  /** Everything one run is given or reads from outside the file system. */
  datatype Request = Request(
    base: Path, output: Path, outputName: string, temporaryName: string, inode: nat,
    maxAge: int, snapshot: Option<Snapshot>, world: World,
    firstClock: int, lastClock: int, cancelled: bool, faults: Faults)

  datatype Failure =
    | UnsafeOutput
    | InvalidOptions
    | RequestFailed
    | StaleSnapshot
    | BaseUnreadable
    | MergeFailed(error: Shadow.ShadowError)
    | CreateFailed
    | WriteFailed
    | FlushFailed
    | ValidationFailed
    | ExpiredBeforePublication
    | PermissionsFailed
    | PublishFailed

  /** The URIs of a snapshot, in its order. */
  function Uris(s: Snapshot): (uris: seq<string>)
    ensures |uris| == |s.nodes|
    ensures forall i :: 0 <= i < |uris| && s.nodes[i].Some? ==> uris[i] == s.nodes[i].value.uri
  {
    seq(|s.nodes|, i requires 0 <= i < |s.nodes| => if s.nodes[i].Some? then s.nodes[i].value.uri else "")
  }

  /** The base is a config, the merge of the snapshot into it succeeds, and the result passes the checker. */
  predicate Vetted(request: Request, base: Option<Content>, validate: Object -> bool) {
    && base.Some? && base.value.Config? && request.snapshot.Some?
    && Shadow.ShadowBuildable(base.value.config, Uris(request.snapshot.value), request.world)
    && validate(Shadow.ShadowConfig(base.value.config, Uris(request.snapshot.value), request.world))
  }

  /** What is read from a path, links followed. */
  function ReadAt(tree: Tree, contents: map<nat, Content>, path: Path): Option<Content> {
    match Stat(tree, path)
    case Found(Regular(inode)) => if inode in contents then Some(contents[inode]) else None
    case _ => None
  }

  /** A file made from the base and the snapshot, with the number of outbounds added. */
  predicate Merged(request: Request, base: Option<Content>, file: Content, count: nat) {
    && base.Some? && base.value.Config? && request.snapshot.Some?
    && var uris := Uris(request.snapshot.value);
       && Shadow.ShadowBuildable(base.value.config, uris, request.world)
       && file == Config(Shadow.ShadowConfig(base.value.config, uris, request.world))
       && count == |Kept(Shadow.ShadowEntries(request.world, uris))|
  }

  /** The tree is as it was, but for the temporary file perhaps. */
  predicate Leftover(before: Tree, after: Tree, temporary: Path, inode: nat) {
    after == before || after == before[temporary := Regular(inode)]
  }

  predicate Preserves(before: map<nat, Content>, after: map<nat, Content>) {
    forall i :: i in before ==> i in after && after[i] == before[i]
  }

  lemma LeftoverKeepsReads(before: Tree, contents: map<nat, Content>, after: Tree, contents': map<nat, Content>,
      temporary: Path, inode: nat, path: Path)
    requires temporary != [] && temporary !in before && Leftover(before, after, temporary, inode)
    requires Preserves(contents, contents') && ReadAt(before, contents, path).Some?
    ensures ReadAt(after, contents', path) == ReadAt(before, contents, path)
  {
    StatIgnoresLeaf(before, temporary, inode, path);
  }

  lemma PublishedReads(before: Tree, contents: map<nat, Content>, contents': map<nat, Content>,
      base: Path, output: Path, inode: nat)
    requires Clean(output) && Accepted(before, base, output)
    requires Preserves(contents, contents') && inode in contents'
    ensures var after := before[output := Regular(inode)];
            && ReadAt(after, contents', output) == Some(contents'[inode])
            && (ReadAt(before, contents, base).Some? ==>
              ReadAt(after, contents', base) == ReadAt(before, contents, base))
  {
    var after := before[output := Regular(inode)];
    AcceptedResolvesToItself(before, base, output, MAX_LINKS);
    forall i | 0 <= i < |output| ensures PlainDirectory(after, output[..i]) {
      assert PlainDirectory(before, output[..i]);
    }
    FollowPlain(after, output, MAX_LINKS, false);
    if ReadAt(before, contents, base).Some? {
      PublicationKeepsBase(before, base, output, inode, Follow(before, [], base, MAX_LINKS, false).path);
    }
  }

  lemma TemporaryIsHarmless(tree: Tree, request: Request, temporary: Path)
    requires Clean(request.output) && Accepted(tree, request.base, request.output)
    requires temporary == Parent(request.output) + [request.temporaryName] && temporary !in tree
    requires request.output != [] ==> request.outputName == request.output[|request.output| - 1]
    requires request.temporaryName != request.outputName
    requires Stat(tree, request.base).Found? && Stat(tree, request.base).node.Regular?
    ensures temporary != request.output
    ensures Accepted(tree[temporary := Regular(request.inode)], request.base, request.output)
  {
    AcceptedResolvesToItself(tree, request.base, request.output, 0);
    assert temporary[|temporary| - 1] == request.temporaryName;
    NewSiblingKeepsAccepted(tree, request.base, request.output, temporary, request.inode);
  }

  /** What went wrong once the candidate was merged. */
  predicate FailedLate(failure: Failure, request: Request, candidate: Object, validate: Object -> bool) {
    match failure
    case CreateFailed => request.faults.create
    case WriteFailed => request.faults.write
    case FlushFailed => request.faults.flush
    case ValidationFailed => !validate(candidate)
    case ExpiredBeforePublication =>
      request.cancelled || !ValidSnapshot(request.snapshot, request.maxAge, request.lastClock)
    case PermissionsFailed => request.faults.chmod
    case PublishFailed => request.faults.rename
    case _ => false
  }

  class Disk {
    var tree: Tree
    var contents: map<nat, Content>

    constructor (tree: Tree, contents: map<nat, Content>)
      ensures this.tree == tree && this.contents == contents
    {
      this.tree, this.contents := tree, contents;
    }

    function Read(path: Path): Option<Content>
      reads this
    {
      ReadAt(tree, contents, path)
    }

    /** Everything that has to go right for a run to publish. */
    ghost predicate Publishable(request: Request, validate: Object -> bool)
      reads this
    {
      && request.outputName == "catalog-shadow.json" && Accepted(tree, request.base, request.output)
      && ValidSnapshot(request.snapshot, request.maxAge, request.firstClock)
      && ValidSnapshot(request.snapshot, request.maxAge, request.lastClock) && !request.cancelled
      && !request.faults.create && Vetted(request, Read(request.base), validate)
      && !request.faults.write && !request.faults.flush && !request.faults.chmod && !request.faults.rename
    }

    /** What each failure says of the request, the tree and the base. */
    ghost predicate Blamed(failure: Failure, request: Request, validate: Object -> bool)
      reads this
    {
      var base := Read(request.base);
      match failure
      case UnsafeOutput =>
        request.outputName != "catalog-shadow.json" || !Accepted(tree, request.base, request.output)
      case InvalidOptions => request.maxAge < 1_000_000_000
      case RequestFailed => request.snapshot.None?
      case StaleSnapshot => !ValidSnapshot(request.snapshot, request.maxAge, request.firstClock)
      case BaseUnreadable => base.None? || base.value.Other?
      case MergeFailed(_) =>
        && base.Some? && base.value.Config? && request.snapshot.Some?
        && !Shadow.ShadowBuildable(base.value.config, Uris(request.snapshot.value), request.world)
      case _ =>
        && base.Some? && base.value.Config? && request.snapshot.Some?
        && FailedLate(failure, request,
          Shadow.ShadowConfig(base.value.config, Uris(request.snapshot.value), request.world), validate)
    }

    /**
     Builds a candidate next to the output and renames it into place. The temporary file
     has a fresh name and inode. `validate` is the external checker.
     */
    method Run(request: Request, validate: Object -> bool) returns (r: Result<nat, Failure>)
      requires Clean(request.output)
      requires Parent(request.output) + [request.temporaryName] !in tree
      requires request.temporaryName != OUTPUT_NAME && request.inode !in contents
      requires request.output != [] ==> request.outputName == request.output[|request.output| - 1]
      modifies this
      ensures r.Ok? <==> old(Publishable(request, validate))
      ensures r.Err? ==> old(Blamed(r.error, request, validate))
      ensures r.Err? ==> Leftover(old(tree), tree, Parent(request.output) + [request.temporaryName], request.inode)
      ensures r.Ok? ==> tree == old(tree)[request.output := Regular(request.inode)]
      ensures Preserves(old(contents), contents)
      ensures old(Read(request.base)).Some? ==> Read(request.base) == old(Read(request.base))
      ensures r.Err? && old(Read(request.output)).Some? ==> Read(request.output) == old(Read(request.output))
      ensures r.Ok? ==>
                && Accepted(old(tree), request.base, request.output)
                && (forall t :: request.firstClock <= t <= request.lastClock ==>
                  ValidSnapshot(request.snapshot, request.maxAge, t))
                && Read(request.output).Some?
                && Merged(request, old(Read(request.base)), Read(request.output).value, r.value)
                && validate(Read(request.output).value.config)
    {
      r := Attempt(request, validate);
      ghost var temporary := Parent(request.output) + [request.temporaryName];
      if r.Err? {
        if old(Read(request.base)).Some? {
          LeftoverKeepsReads(old(tree), old(contents), tree, contents, temporary, request.inode, request.base);
        }
        if old(Read(request.output)).Some? {
          LeftoverKeepsReads(old(tree), old(contents), tree, contents, temporary, request.inode, request.output);
        }
      } else {
        PublishedReads(old(tree), old(contents), contents, request.base, request.output, request.inode);
        forall t | request.firstClock <= t <= request.lastClock
          ensures ValidSnapshot(request.snapshot, request.maxAge, t) {
          ValidInBetween(request.snapshot, request.maxAge, request.firstClock, request.lastClock, t);
        }
      }
    }

    /** The steps of a run, in their order. */
    method Attempt(request: Request, validate: Object -> bool) returns (r: Result<nat, Failure>)
      requires Clean(request.output)
      requires Parent(request.output) + [request.temporaryName] !in tree
      requires request.temporaryName != OUTPUT_NAME && request.inode !in contents
      requires request.output != [] ==> request.outputName == request.output[|request.output| - 1]
      modifies this
      ensures r.Ok? <==> old(Publishable(request, validate))
      ensures r.Err? ==> old(Blamed(r.error, request, validate))
      ensures r.Err? ==> Leftover(old(tree), tree, Parent(request.output) + [request.temporaryName], request.inode)
      ensures r.Ok? ==> tree == old(tree)[request.output := Regular(request.inode)]
      ensures Preserves(old(contents), contents)
      ensures r.Ok? ==>
                && request.inode in contents
                && Merged(request, old(Read(request.base)), contents[request.inode], r.value)
                && validate(contents[request.inode].config)
    {
      var safe := CheckOutput(tree, true, request.outputName, Some(request.base), Some(request.output));
      if !safe {
        return Err(UnsafeOutput);
      }
      if request.maxAge < SECOND {
        return Err(InvalidOptions);
      }
      if request.snapshot.None? {
        return Err(RequestFailed);
      }
      var recent := CheckSnapshot(request.snapshot, request.maxAge, request.firstClock);
      if !recent {
        return Err(StaleSnapshot);
      }
      var data := Read(request.base);
      if data.None? || !data.value.Config? {
        return Err(BaseUnreadable);
      }
      var merged := Shadow.Merge(data.value.config, Uris(request.snapshot.value), request.world);
      if merged.Err? {
        return Err(MergeFailed(merged.error));
      }
      r := Publish(request, merged.value.0, merged.value.1, validate);
    }

    /** The temporary file, the checks on it, and the rename. */
    method Publish(request: Request, candidate: Object, count: nat, validate: Object -> bool)
        returns (r: Result<nat, Failure>)
      requires Clean(request.output) && Accepted(tree, request.base, request.output)
      requires Parent(request.output) + [request.temporaryName] !in tree
      requires request.temporaryName != OUTPUT_NAME && request.inode !in contents
      requires request.output != [] ==> request.outputName == request.output[|request.output| - 1]
      requires request.outputName == "catalog-shadow.json" && Stat(tree, request.base).Found?
                && Stat(tree, request.base).node.Regular?
      modifies this
      ensures r.Ok? <==>
                && !request.faults.create && !request.faults.write && !request.faults.flush && validate(candidate)
                && !request.cancelled && ValidSnapshot(request.snapshot, request.maxAge, request.lastClock)
                && !request.faults.chmod && !request.faults.rename
      ensures r.Err? ==> FailedLate(r.error, request, candidate, validate)
      ensures r.Err? ==> Leftover(old(tree), tree, Parent(request.output) + [request.temporaryName], request.inode)
      ensures Preserves(old(contents), contents)
      ensures r.Ok? ==>
                && tree == old(tree)[request.output := Regular(request.inode)]
                && contents == old(contents)[request.inode := Config(candidate)]
                && r.value == count
                && validate(candidate)
                && ValidSnapshot(request.snapshot, request.maxAge, request.lastClock)
    {
      var temporary := Parent(request.output) + [request.temporaryName];
      if request.faults.create {
        return Err(CreateFailed);
      }
      TemporaryIsHarmless(tree, request, temporary);
      tree := tree[temporary := Regular(request.inode)];
      contents := contents[request.inode := Other];
      var failure := WriteAndVet(request, candidate, validate);
      if failure.Some? {
        Discard(temporary, request.faults.remove);
        assert old(tree)[temporary := Regular(request.inode)] - {temporary} == old(tree);
        return Err(failure.value);
      }
      tree := (tree - {temporary})[request.output := Regular(request.inode)];
      assert tree == old(tree)[request.output := Regular(request.inode)];
      return Ok(count);
    }

    /** Everything that can still go wrong once the temporary file exists. */
    method WriteAndVet(request: Request, candidate: Object, validate: Object -> bool) returns (failure: Option<Failure>)
      requires Clean(request.output) && request.inode in contents
      requires request.output != [] ==> request.outputName == request.output[|request.output| - 1]
      modifies this`contents
      ensures var written := if request.faults.write then old(contents[request.inode]) else Config(candidate);
              contents == old(contents)[request.inode := written]
      ensures failure.None? <==>
                && !request.faults.write && !request.faults.flush && validate(candidate)
                && !request.cancelled && ValidSnapshot(request.snapshot, request.maxAge, request.lastClock)
                && request.outputName == "catalog-shadow.json" && Accepted(tree, request.base, request.output)
                && !request.faults.chmod && !request.faults.rename
      ensures failure.Some? && failure.value != UnsafeOutput ==> FailedLate(failure.value, request, candidate, validate)
      ensures failure == Some(UnsafeOutput) ==>
                request.outputName != "catalog-shadow.json" || !Accepted(tree, request.base, request.output)
    {
      if request.faults.write {
        return Some(WriteFailed);
      }
      contents := contents[request.inode := Config(candidate)];
      if request.faults.flush {
        return Some(FlushFailed);
      }
      if !validate(candidate) {
        return Some(ValidationFailed);
      }
      var still := CheckSnapshot(request.snapshot, request.maxAge, request.lastClock);
      if request.cancelled || !still {
        return Some(ExpiredBeforePublication);
      }
      var safe := CheckOutput(tree, true, request.outputName, Some(request.base), Some(request.output));
      if !safe {
        return Some(UnsafeOutput);
      }
      if request.faults.chmod {
        return Some(PermissionsFailed);
      }
      if request.faults.rename {
        return Some(PublishFailed);
      }
      return None;
    }

    /** The deferred removal; when it fails the temporary file stays behind. */
    method Discard(temporary: Path, fails: bool)
      modifies this`tree
      ensures tree == if fails then old(tree) else old(tree) - {temporary}
    {
      if !fails {
        tree := tree - {temporary};
      }
    }
  }

  /** A successful publication leaves the base file where it was, with its contents. */
  lemma PublicationKeepsBase(tree: Tree, base: Path, output: Path, inode: nat, place: Path)
    requires Clean(output) && Accepted(tree, base, output)
    requires Follow(tree, [], base, MAX_LINKS, false) == At(place) && place != [] && place in tree
              && tree[place].Regular?
    ensures Stat(tree[output := Regular(inode)], base) == Stat(tree, base) == Found(tree[place])
  {
    AcceptedResolvesToItself(tree, base, output, MAX_LINKS);
    BaseIsElsewhere(tree, base, output, place);
    FollowIgnoresLeaf(tree, output, inode, [], base, MAX_LINKS, place);
  }
}
