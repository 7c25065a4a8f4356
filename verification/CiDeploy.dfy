/** The locked fetch, compare, fast-forward and activate sequence of a CI delivery. */
module CiDeploy {
  import opened Wrappers

  // ---- commits ------------------------------------------------------------------

  /** A commit fixes its parents, and so on down; its object name identifies it. */
  datatype Commit = Commit(sha: string, parents: seq<Commit>)

  predicate IsAncestor(a: Commit, c: Commit) {
    a == c || exists i :: 0 <= i < |c.parents| && IsAncestor(a, c.parents[i])
  }

  lemma {:induction false} AncestorsCompose(a: Commit, b: Commit, c: Commit)
    requires IsAncestor(a, b) && IsAncestor(b, c)
    ensures IsAncestor(a, c)
    decreases c
  {
    if b != c {
      var i :| 0 <= i < |c.parents| && IsAncestor(b, c.parents[i]);
      AncestorsCompose(a, b, c.parents[i]);
    }
  }

  function Depth(c: Commit): nat {
    1 + DeepestOf(c.parents)
  }

  function DeepestOf(commits: seq<Commit>): (d: nat)
    ensures forall i :: 0 <= i < |commits| ==> Depth(commits[i]) <= d
  {
    if commits == [] then 0 else
    var first, rest := Depth(commits[0]), DeepestOf(commits[1..]);
    if first < rest then rest else first
  }

  lemma {:induction false} AncestorsAreShallower(a: Commit, c: Commit)
    requires IsAncestor(a, c) && a != c
    ensures Depth(a) < Depth(c)
    decreases c
  {
    var i :| 0 <= i < |c.parents| && IsAncestor(a, c.parents[i]);
    assert Depth(c.parents[i]) <= DeepestOf(c.parents);
    if a != c.parents[i] {
      AncestorsAreShallower(a, c.parents[i]);
    }
  }

  lemma AncestorsAntisymmetric(a: Commit, c: Commit)
    requires IsAncestor(a, c) && IsAncestor(c, a)
    ensures a == c
  {
    if a != c {
      AncestorsAreShallower(a, c);
      AncestorsAreShallower(c, a);
    }
  }

  predicate IsObjectName(sha: string) {
    |sha| == 40 && forall i :: 0 <= i < 40 ==> '0' <= sha[i] <= '9' || 'a' <= sha[i] <= 'f'
  }

  /** The digits `git rev-parse` prints, forty of them. */
  lemma ObjectNamesAreHex(sha: string)
    ensures IsObjectName(sha) <==> |sha| == 40 && forall c :: c in sha ==> c in "0123456789abcdef"
  {
    assert forall c :: c in "0123456789abcdef" <==> '0' <= c <= '9' || 'a' <= c <= 'f';
    assert forall i :: 0 <= i < |sha| ==> sha[i] in sha;
  }

  /** Each commit of the path is a parent of the next. */
  predicate IsPath(path: seq<Commit>) {
    path != [] && forall i :: 0 < i < |path| ==> path[i - 1] in path[i].parents
  }

  lemma {:induction false} PathLeads(path: seq<Commit>)
    requires IsPath(path)
    ensures IsAncestor(path[0], path[|path| - 1])
    decreases |path|
  {
    var n := |path| - 1;
    if n > 0 {
      PathLeads(path[..n]);
      var i :| 0 <= i < |path[n].parents| && path[n].parents[i] == path[n - 1];
    }
  }

  lemma {:induction false} PathExists(a: Commit, c: Commit) returns (path: seq<Commit>)
    requires IsAncestor(a, c)
    ensures IsPath(path) && path[0] == a && path[|path| - 1] == c
    decreases c
  {
    if a == c {
      path := [a];
    } else {
      var i :| 0 <= i < |c.parents| && IsAncestor(a, c.parents[i]);
      path := PathExists(a, c.parents[i]);
      path := path + [c];
    }
  }

  /** Ancestors are what parents lead to, in any number of steps. */
  lemma AncestorsAreReached(a: Commit, c: Commit)
    ensures IsAncestor(a, c) <==> exists path :: IsPath(path) && path[0] == a && path[|path| - 1] == c
  {
    if IsAncestor(a, c) {
      var path := PathExists(a, c);
    }
    if path: seq<Commit> :| IsPath(path) && path[0] == a && path[|path| - 1] == c {
      PathLeads(path);
    }
  }

  /** `merge --ff-only`: no move when there is nothing to add, failure when histories have parted. */
  function FastForward(head: Commit, target: Commit): Option<Commit> {
    if IsAncestor(target, head) then Some(head)
    else if IsAncestor(head, target) then Some(target)
    else None
  }

  /** The merge succeeds on a checkout that is ahead, so only the comparison after it tells. */
  lemma ForwardMeets(head: Commit, target: Commit)
    ensures FastForward(head, target) == Some(target) <==> IsAncestor(head, target)
    ensures FastForward(head, target).Some? && FastForward(head, target) != Some(target) ==>
              FastForward(head, target) == Some(head)
  {
    if IsAncestor(target, head) && IsAncestor(head, target) {
      AncestorsAntisymmetric(target, head);
    }
  }

  // ---- one delivery ---------------------------------------------------------------

  /** What one delivery finds: `remote` is None when the fetch fails. */
  datatype Surroundings = Surroundings(locked: bool, onMain: bool, tidy: bool, remote: Option<Commit>, login: bool)

  predicate Allowed(head: Commit, tested: Commit, e: Surroundings) {
    IsObjectName(tested.sha) && e.locked && e.onMain && e.tidy && e.remote == Some(tested) && IsAncestor(head, tested)
  }

  class Checkout {
    var head: Commit
    var fetchHead: Option<Commit>

    constructor (head: Commit)
      ensures this.head == head && fetchHead == None
    {
      this.head, fetchHead := head, None;
    }

    /**
     Ahead, diverged and stale checkouts are refused where they stand; a delivery that gets
     past that activates what was tested.
     */
    method Deliver(tested: Commit, e: Surroundings) returns (activated: Option<Commit>)
      modifies this
      ensures head == if Allowed(old(head), tested, e) then tested else old(head)
      ensures activated == if Allowed(old(head), tested, e) && e.login then Some(tested) else None
    {
      if !IsObjectName(tested.sha) {
        return None;
      }
      if !e.locked || !e.onMain || !e.tidy || e.remote.None? {
        return None;
      }
      fetchHead := e.remote;
      if fetchHead.value != tested {
        return None;
      }
      ForwardMeets(head, tested);
      var merged := FastForward(head, tested);
      if merged.None? {
        return None;
      }
      head := merged.value;
      if head != tested {
        return None;
      }
      if !e.login {
        return None;
      }
      return Some(head);
    }
  }

  // ---- many deliveries at once, while remote main moves -----------------------------

  datatype Pc = WantLock | Check | Fetch | Compare | Merge | Confirm | Login | Activate | Ended

  datatype Delivery = Delivery(tested: Commit, pc: Pc)

  /** An activation, with HEAD and the last fetched commit at that time. */
  datatype Activation = Activation(id: nat, tested: Commit, head: Commit, fetched: Option<Commit>)

  /** `heads` and `remotes` are the values HEAD and remote main have had, the present one last. */
  datatype State = State(
    deliveries: map<nat, Delivery>, lock: Option<nat>, fetchHead: Option<Commit>,
    heads: seq<Commit>, remotes: seq<Commit>, activations: seq<Activation>)

  function Boot(head: Commit, remote: Commit): State {
    State(map[], None, None, [head], [remote], [])
  }

  datatype Event = Arrive(id: nat, tested: Commit) | Push(commit: Commit) | Run(id: nat, fails: bool)

  function At(s: State, id: nat, pc: Pc): State
    requires id in s.deliveries
  {
    s.(deliveries := s.deliveries[id := s.deliveries[id].(pc := pc)])
  }

  /** The shell exits, and the lock goes with it. */
  function Exit(s: State, id: nat): State
    requires id in s.deliveries
  {
    At(s, id, Ended).(lock := None)
  }

  predicate Enabled(s: State, id: nat) {
    && id in s.deliveries && s.deliveries[id].pc != Ended
    && (s.deliveries[id].pc == WantLock ==> s.lock.None?)
  }

  function Next(s: State, id: nat, fails: bool): State
    requires Enabled(s, id) && s.heads != [] && s.remotes != []
  {
    var d, head := s.deliveries[id], s.heads[|s.heads| - 1];
    match d.pc
    case WantLock => if fails then At(s, id, Ended) else At(s.(lock := Some(id)), id, Check)
    case Check => if fails then Exit(s, id) else At(s, id, Fetch)
    case Fetch => if fails then Exit(s, id) else At(s.(fetchHead := Some(s.remotes[|s.remotes| - 1])), id, Compare)
    case Compare => if fails || s.fetchHead != Some(d.tested) then Exit(s, id) else At(s, id, Merge)
    case Merge =>
      if fails || FastForward(head, d.tested).None? then Exit(s, id)
      else At(s.(heads := s.heads + [FastForward(head, d.tested).value]), id, Confirm)
    case Confirm => if fails || head != d.tested then Exit(s, id) else At(s, id, Login)
    case Login => if fails then Exit(s, id) else At(s, id, Activate)
    case Ended => s
    case Activate => Exit(s.(activations := s.activations + [Activation(id, d.tested, head, s.fetchHead)]), id)
  }

  function Step(s: State, e: Event): State
    requires s.heads != [] && s.remotes != []
  {
    match e
    case Arrive(id, tested) =>
      if id in s.deliveries || !IsObjectName(tested.sha) then s
      else s.(deliveries := s.deliveries[id := Delivery(tested, WantLock)])
    case Push(commit) => s.(remotes := s.remotes + [commit])
    case Run(id, fails) => if Enabled(s, id) then Next(s, id, fails) else s
  }

  function Exec(s: State, events: seq<Event>): (r: State)
    requires s.heads != [] && s.remotes != []
    ensures r.heads != [] && r.remotes != []
  {
    if events == [] then s else Step(Exec(s, events[..|events| - 1]), events[|events| - 1])
  }

  predicate Chain(heads: seq<Commit>) {
    forall i :: 0 < i < |heads| ==> IsAncestor(heads[i - 1], heads[i])
  }

  predicate DeliveryOk(d: Delivery, s: State)
    requires s.heads != []
  {
    && (d.pc in {Merge, Confirm, Login, Activate} ==> s.fetchHead == Some(d.tested))
    && (d.pc in {Login, Activate} ==> s.heads[|s.heads| - 1] == d.tested)
  }

  predicate ActivationOk(a: Activation, s: State) {
    a.head == a.tested && a.fetched == Some(a.tested) && a.tested in s.heads && a.tested in s.remotes
  }

  predicate Inv(s: State) {
    && s.heads != [] && s.remotes != []
    && Chain(s.heads)
    && (s.fetchHead.Some? ==> s.fetchHead.value in s.remotes)
    && (forall id :: id in s.deliveries ==> (s.deliveries[id].pc !in {WantLock, Ended} <==> s.lock == Some(id)))
    && (s.lock.Some? ==> s.lock.value in s.deliveries && DeliveryOk(s.deliveries[s.lock.value], s))
    && (forall i :: 0 <= i < |s.activations| ==> ActivationOk(s.activations[i], s))
    && (forall i :: 0 < i < |s.heads| ==> s.heads[i] == s.heads[i - 1] || s.heads[i] in s.remotes)
  }

  lemma MergeKeeps(s: State, id: nat, fails: bool)
    requires Inv(s) && Enabled(s, id) && s.deliveries[id].pc == Merge
    ensures Inv(Next(s, id, fails))
  {
    ForwardMeets(s.heads[|s.heads| - 1], s.deliveries[id].tested);
  }

  lemma RunKeeps(s: State, id: nat, fails: bool)
    requires Inv(s) && Enabled(s, id) && s.deliveries[id].pc != Merge
    ensures Inv(Next(s, id, fails))
  {
  }

  lemma StepKeeps(s: State, e: Event)
    requires Inv(s)
    ensures Inv(Step(s, e))
  {
    if e.Run? && Enabled(s, e.id) {
      if s.deliveries[e.id].pc == Merge {
        MergeKeeps(s, e.id, e.fails);
      } else {
        RunKeeps(s, e.id, e.fails);
      }
    }
  }

  lemma {:induction false} ExecKeeps(s: State, events: seq<Event>)
    requires Inv(s)
    ensures Inv(Exec(s, events))
  {
    if events == [] {
    } else {
      ExecKeeps(s, events[..|events| - 1]);
      StepKeeps(Exec(s, events[..|events| - 1]), events[|events| - 1]);
    }
  }

  /** Images are activated only with HEAD at the tested commit, which was remote main when it was fetched. */
  lemma ActivationsMatch(head: Commit, remote: Commit, events: seq<Event>)
    ensures var s := Exec(Boot(head, remote), events);
            forall i :: 0 <= i < |s.activations| ==> ActivationOk(s.activations[i], s)
  {
    ExecKeeps(Boot(head, remote), events);
  }

  lemma {:induction false} ChainsReach(heads: seq<Commit>, i: nat, j: nat)
    requires Chain(heads) && i <= j < |heads|
    ensures IsAncestor(heads[i], heads[j])
    decreases j
  {
    if i < j {
      ChainsReach(heads, i, j - 1);
      AncestorsCompose(heads[i], heads[j - 1], heads[j]);
    }
  }

  /** HEAD only moves forward along history: it never comes back to a commit it has left. */
  lemma HeadsOnlyAdvance(head: Commit, remote: Commit, events: seq<Event>, i: nat, j: nat, k: nat)
    requires i <= j <= k < |Exec(Boot(head, remote), events).heads|
    ensures var heads := Exec(Boot(head, remote), events).heads;
            IsAncestor(heads[i], heads[j]) && (heads[i] == heads[k] ==> heads[j] == heads[i])
  {
    ExecKeeps(Boot(head, remote), events);
    var heads := Exec(Boot(head, remote), events).heads;
    ChainsReach(heads, i, j);
    ChainsReach(heads, j, k);
    if heads[i] == heads[k] {
      AncestorsAntisymmetric(heads[i], heads[j]);
    }
  }

  // ---- no delivery is dropped without cause ----------------------------------------------

  /** What happened to one delivery: a command that failed, what it fetched, HEAD before its merge. */
  datatype Note = Note(fault: bool, fetched: Option<Commit>, head: Option<Commit>)

  const BLANK := Note(false, None, None)

  function Witness(n: Note, pc: Pc, s: State, fails: bool): Note
    requires s.heads != [] && s.remotes != []
  {
    Note(
      n.fault || (fails && pc != Activate),
      if pc == Fetch then Some(s.remotes[|s.remotes| - 1]) else n.fetched,
      if pc == Merge then Some(s.heads[|s.heads| - 1]) else n.head)
  }

  function Seen(start: State, events: seq<Event>, id: nat): Note
    requires start.heads != [] && start.remotes != []
  {
    if events == [] then BLANK else
    var n := |events| - 1;
    var s, seen := Exec(start, events[..n]), Seen(start, events[..n], id);
    match events[n]
    case Run(i, fails) => if i == id && Enabled(s, i) then Witness(seen, s.deliveries[i].pc, s, fails) else seen
    case _ => seen
  }

  /** Every command worked, remote main was the tested commit, and HEAD could be forwarded to it. */
  predicate Deserving(n: Note, tested: Commit) {
    !n.fault && n.fetched == Some(tested) && n.head.Some? && IsAncestor(n.head.value, tested)
  }

  ghost predicate Activated(s: State, id: nat) {
    exists i :: 0 <= i < |s.activations| && s.activations[i].id == id
  }

  ghost predicate Follows(s: State, id: nat, n: Note)
    requires s.heads != []
  {
    if id !in s.deliveries then n == BLANK && !Activated(s, id) else
    var d, last := s.deliveries[id], s.heads[|s.heads| - 1];
    && (d.pc != Ended ==> !n.fault && !Activated(s, id))
    && match d.pc
       case Ended => Activated(s, id) <==> Deserving(n, d.tested)
       case Compare => n.fetched.Some? && s.fetchHead == n.fetched && n.head.None?
       case Merge => n.fetched == Some(d.tested) && n.head.None?
       case Confirm =>
         n.fetched == Some(d.tested) && n.head.Some? && FastForward(n.head.value, d.tested) == Some(last)
       case Login => Deserving(n, d.tested)
       case Activate => Deserving(n, d.tested)
       case _ => n == BLANK
  }

  lemma OwnStepFollows(s: State, id: nat, fails: bool, n: Note)
    requires Inv(s) && Enabled(s, id) && Follows(s, id, n)
    ensures Follows(Next(s, id, fails), id, Witness(n, s.deliveries[id].pc, s, fails))
  {
    var d, s' := s.deliveries[id], Next(s, id, fails);
    if n.head.Some? {
      ForwardMeets(n.head.value, d.tested);
    }
    ForwardMeets(s.heads[|s.heads| - 1], d.tested);
    assert forall i :: 0 <= i < |s.activations| ==> s'.activations[i] == s.activations[i];
    if d.pc == Activate {
      assert s'.activations[|s.activations|].id == id;
    }
  }

  lemma OtherStepFollows(s: State, other: nat, fails: bool, id: nat, n: Note)
    requires Inv(s) && Enabled(s, other) && other != id && Follows(s, id, n)
    ensures Follows(Next(s, other, fails), id, n)
  {
    var s' := Next(s, other, fails);
    assert forall i :: 0 <= i < |s.activations| ==> s'.activations[i] == s.activations[i];
  }

  lemma {:induction false} RunFollows(head: Commit, remote: Commit, events: seq<Event>, id: nat)
    ensures Follows(Exec(Boot(head, remote), events), id, Seen(Boot(head, remote), events, id))
  {
    var boot := Boot(head, remote);
    if events != [] {
      var front, event := events[..|events| - 1], events[|events| - 1];
      var s, n := Exec(boot, front), Seen(boot, front, id);
      ExecKeeps(boot, front);
      RunFollows(head, remote, front, id);
      if event.Run? && Enabled(s, event.id) {
        if event.id == id {
          OwnStepFollows(s, id, event.fails, n);
        } else {
          OtherStepFollows(s, event.id, event.fails, id, n);
        }
      }
    }
  }

  /**
   A delivery that has ended activated its images exactly if none of its commands failed, the
   commit it fetched was the tested one, and HEAD could be fast-forwarded to that.
   */
  lemma EndsOnlyWithCause(head: Commit, remote: Commit, events: seq<Event>, id: nat)
    requires var s := Exec(Boot(head, remote), events); id in s.deliveries && s.deliveries[id].pc == Ended
    ensures var s := Exec(Boot(head, remote), events);
            Activated(s, id) <==> Deserving(Seen(Boot(head, remote), events, id), s.deliveries[id].tested)
  {
    RunFollows(head, remote, events, id);
  }
}
