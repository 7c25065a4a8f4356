/**
 What happens around the commands of the activation script, one tick after the other, and
 how far a given run of ticks lets an action get.
 */
module DeployTape {
  import opened Wrappers

  type Content = string

  datatype Action = Deploy | Refresh | Add | Rollback

  datatype Interrupt = Nothing | Signal | Kill

  /**
   What happens around one command: a background refresh published before it, whether it
   works, what a probe answers, whether a failing recreation has replaced the container,
   and how the script is disturbed during it.
   */
  datatype Tick = Tick(refresh: Option<Content>, ok: bool, answer: bool, replaced: bool, interrupt: Interrupt)

  type Tape = seq<Tick>

  const QUIET := Tick(None, false, false, false, Nothing)

  datatype Status = Fine | Failed | Interrupted | Dead

  function StatusOf(t: Tick): Status {
    match t.interrupt
    case Kill => Dead
    case Signal => Interrupted
    case Nothing => if t.ok then Fine else Failed
  }

  /** Beyond its end a tape goes on failing. */
  function TickAt(tape: Tape, k: nat): Tick {
    if k < |tape| then tape[k] else QUIET
  }

  predicate FineAt(tape: Tape, k: nat) {
    StatusOf(TickAt(tape, k)) == Fine
  }

  /** A command that works, with a signal arriving meanwhile. */
  predicate SignalAt(tape: Tape, k: nat) {
    TickAt(tape, k).ok && TickAt(tape, k).interrupt == Signal
  }

  predicate CutAt(tape: Tape, k: nat) {
    TickAt(tape, k).interrupt != Nothing
  }

  /** The manager publishes a validated config during this command. */
  ghost predicate PublishesAt(tape: Tape, vetted: Content -> bool, k: nat) {
    k < |tape| && tape[k].ok && tape[k].refresh.Some? && vetted(tape[k].refresh.value)
  }

  // ---- in plain terms ---------------------------------------------------------------

  /** A command that works undisturbed. */
  predicate Works(tape: Tape, k: nat) {
    k < |tape| && tape[k].ok && tape[k].interrupt == Nothing
  }

  predicate WorkFrom(tape: Tape, k: nat, count: nat) {
    forall i :: k <= i < k + count ==> Works(tape, i)
  }

  predicate Replies(tape: Tape, k: nat) {
    Works(tape, k) && tape[k].answer
  }

  predicate Undisturbed(tape: Tape, first: nat, end: nat) {
    forall k :: first <= k < end && k < |tape| ==> tape[k].interrupt == Nothing
  }

  /** Probes at every other tick from `first` on: attempt `i` is the first that is answered. */
  predicate FirstReply(tape: Tape, first: nat, i: nat) {
    && Replies(tape, first + 2 * i)
    && Undisturbed(tape, first, first + 2 * i)
    && forall k :: first <= k < first + 2 * i && (k - first) % 2 == 0 ==> !Replies(tape, k)
  }

  predicate ProbesWork(tape: Tape, first: nat, i: nat) {
    forall k :: first <= k < first + 2 * i && (k - first) % 2 == 0 ==> Works(tape, k)
  }

  /** The manager's readiness loop: a probe that fails is tried again. */
  predicate ManagerReplies(tape: Tape, first: nat, i: nat) {
    i < 60 && FirstReply(tape, first, i)
  }

  /** The router's check: the container is listed, and its probes work until one is answered. */
  predicate RouterReplies(tape: Tape, first: nat, i: nat) {
    && i < 30
    && Replies(tape, first)
    && FirstReply(tape, first + 1, i)
    && ProbesWork(tape, first + 1, i)
  }

  /** A generating action comes through, the manager and the router answering at these attempts. */
  ghost predicate GeneratesVia(tape: Tape, vetted: Content -> bool, action: Action, named: bool, start: nat,
      i: nat, j: nat) {
    var first := if action == Deploy then start + 1 else start;
    var post := first + 2 * i + 1;
    && (action == Deploy ==> Works(tape, start))
    && ManagerReplies(tape, first, i)
    && (action == Add ==> named)
    && PublishesAt(tape, vetted, post)
    && WorkFrom(tape, post, 6)
    && RouterReplies(tape, post + 6, j)
  }

  ghost predicate Generates(tape: Tape, vetted: Content -> bool, action: Action, named: bool, start: nat) {
    exists i: nat, j: nat :: GeneratesVia(tape, vetted, action, named, start, i, j)
  }

  /** A rollback gets to its swap, the router answering at this attempt. */
  predicate SwapsVia(tape: Tape, start: nat, j: nat) {
    WorkFrom(tape, start, 6) && RouterReplies(tape, start + 6, j)
  }

  /** It comes through when copying, swapping and cleaning up work too. */
  ghost predicate RollsBack(tape: Tape, start: nat) {
    exists j: nat :: SwapsVia(tape, start, j) && WorkFrom(tape, start + 8 + 2 * j, 3)
  }

  /** A signal hits the `mv` of the swap. */
  predicate SwapCutVia(tape: Tape, start: nat, j: nat) {
    SwapsVia(tape, start, j) && Works(tape, start + 8 + 2 * j) && SignalAt(tape, start + 9 + 2 * j)
  }

  ghost predicate SwapCut(tape: Tape, start: nat) {
    exists j: nat :: SwapCutVia(tape, start, j)
  }

  /**
   The one way to lose the previous snapshot: a signal hits the swap, and the trap it sets
   off gets as far as putting `active` back.
   */
  ghost predicate LosesPrevious(tape: Tape, start: nat) {
    exists j: nat ::
      SwapCutVia(tape, start, j) && Works(tape, start + 10 + 2 * j) && TickAt(tape, start + 11 + 2 * j).ok
  }

  // ---- as the script goes along --------------------------------------------------------

  /** Where a probing loop ends that has `left` attempts to go, if it ends well. */
  function AnsweredFrom(tape: Tape, k: nat, left: nat, strict: bool): Option<nat>
    decreases left, k
  {
    if left == 0 || CutAt(tape, k) || (strict && !TickAt(tape, k).ok) then None
    else if TickAt(tape, k).ok && TickAt(tape, k).answer then Some(k + 1)
    else if CutAt(tape, k + 1) then None
    else AnsweredFrom(tape, k + 2, left - 1, strict)
  }

  const ROUTER_ATTEMPTS := 30
  const MANAGER_ATTEMPTS := 60

  function RouterEnd(tape: Tape, start: nat): Option<nat> {
    if FineAt(tape, start) && TickAt(tape, start).answer then AnsweredFrom(tape, start + 1, ROUTER_ATTEMPTS, true)
      else None
  }

  /** Snapshot, recreation and check, one after the other. */
  function BringEnd(tape: Tape, start: nat): Option<nat> {
    if ThreeFine(tape, start) then RouterEnd(tape, start + 3) else None
  }

  /** Three commands in a row: a snapshot and the one before or after it. */
  predicate ThreeFine(tape: Tape, k: nat) {
    FineAt(tape, k) && FineAt(tape, k + 1) && FineAt(tape, k + 2)
  }

  /** A signal hits the swap begun at `k`. */
  predicate CutAfterSwap(tape: Tape, k: nat) {
    FineAt(tape, k) && SignalAt(tape, k + 1)
  }

  /** The snapshot a trap begun at `k` takes of the backup is completed. */
  predicate PutBack(tape: Tape, k: nat) {
    FineAt(tape, k) && TickAt(tape, k + 1).ok
  }

  /** Where the request to generate ends, if it ends well. */
  ghost function RequestedEnd(tape: Tape, vetted: Content -> bool, action: Action, named: bool, start: nat)
    : Option<nat>
  {
    var first := if action == Deploy then start + 1 else start;
    if action == Deploy && !FineAt(tape, start) then None
    else match AnsweredFrom(tape, first, MANAGER_ATTEMPTS, false)
      case None => None
      case Some(k) =>
        if (action == Add && !named) || !FineAt(tape, k) || !PublishesAt(tape, vetted, k) then None else Some(k + 1)
  }

  /** Where the part before the trap ends for an action that generates, if it ends well. */
  ghost function PreparedEnd(tape: Tape, vetted: Content -> bool, action: Action, named: bool, start: nat): Option<nat>
  {
    match RequestedEnd(tape, vetted, action, named, start)
    case None => None
    case Some(k) => if FineAt(tape, k) && FineAt(tape, k + 1) then Some(k + 2) else None
  }

  // ---- both say the same ------------------------------------------------------------------

  /** The first reply, given that probes of a strict loop have to work. */
  predicate ReplyCounts(tape: Tape, first: nat, i: nat, strict: bool) {
    FirstReply(tape, first, i) && (strict ==> ProbesWork(tape, first, i))
  }

  lemma LaterReply(tape: Tape, k: nat, i: nat, strict: bool)
    ensures ReplyCounts(tape, k, i + 1, strict) <==>
              && !CutAt(tape, k) && !CutAt(tape, k + 1) && !Replies(tape, k) && (strict ==> Works(tape, k))
              && ReplyCounts(tape, k + 2, i, strict)
  {
    assert (k + 2) + 2 * i == k + 2 * (i + 1);
  }

  lemma {:induction false} AnsweredExactly(tape: Tape, k: nat, left: nat, strict: bool, i: nat)
    ensures AnsweredFrom(tape, k, left, strict) == Some(k + 2 * i + 1) <==> i < left && ReplyCounts(tape, k, i, strict)
    decreases left
  {
    if left > 0 {
      if i > 0 {
        AnsweredExactly(tape, k + 2, left - 1, strict, i - 1);
        LaterReply(tape, k, i - 1, strict);
        assert (k + 2) + 2 * (i - 1) + 1 == k + 2 * i + 1;
      }
      AnswerIsLater(tape, k + 2, left - 1, strict);
    }
  }

  lemma {:induction false} AnswerIsLater(tape: Tape, k: nat, left: nat, strict: bool)
    ensures var end := AnsweredFrom(tape, k, left, strict); end.Some? ==> end.value > k
    decreases left, k
  {
    if left > 0 {
      AnswerIsLater(tape, k + 2, left - 1, strict);
    }
  }

  lemma {:induction false} AnswerHasAttempt(tape: Tape, k: nat, left: nat, strict: bool) returns (i: nat)
    requires AnsweredFrom(tape, k, left, strict).Some?
    ensures i < left && AnsweredFrom(tape, k, left, strict) == Some(k + 2 * i + 1)
    decreases left
  {
    if TickAt(tape, k).ok && TickAt(tape, k).answer {
      i := 0;
    } else {
      i := AnswerHasAttempt(tape, k + 2, left - 1, strict);
      i := i + 1;
    }
  }

  lemma FineIsWorks(tape: Tape, k: nat)
    ensures FineAt(tape, k) <==> Works(tape, k)
  {
  }

  /** The manager's loop ends well exactly if one of its sixty probes is answered undisturbed. */
  lemma ManagerExactly(tape: Tape, first: nat)
    ensures forall i: nat :: ManagerReplies(tape, first, i) <==>
              AnsweredFrom(tape, first, MANAGER_ATTEMPTS, false) == Some(first + 2 * i + 1)
    ensures AnsweredFrom(tape, first, MANAGER_ATTEMPTS, false).Some? <==>
              exists i: nat :: ManagerReplies(tape, first, i)
  {
    forall i: nat
      ensures ManagerReplies(tape, first, i) <==>
                AnsweredFrom(tape, first, MANAGER_ATTEMPTS, false) == Some(first + 2 * i + 1) {
      AnsweredExactly(tape, first, MANAGER_ATTEMPTS, false, i);
    }
    if AnsweredFrom(tape, first, MANAGER_ATTEMPTS, false).Some? {
      var i := AnswerHasAttempt(tape, first, MANAGER_ATTEMPTS, false);
      assert ManagerReplies(tape, first, i);
    }
  }

  /** The router's check ends well exactly if one of its thirty probes is, all before it working. */
  lemma RouterExactly(tape: Tape, first: nat)
    ensures forall i: nat :: RouterReplies(tape, first, i) <==> RouterEnd(tape, first) == Some(first + 2 + 2 * i)
    ensures RouterEnd(tape, first).Some? <==> exists i: nat :: RouterReplies(tape, first, i)
  {
    FineIsWorks(tape, first);
    forall i: nat
      ensures RouterReplies(tape, first, i) <==> RouterEnd(tape, first) == Some(first + 2 + 2 * i) {
      AnsweredExactly(tape, first + 1, ROUTER_ATTEMPTS, true, i);
    }
    if RouterEnd(tape, first).Some? {
      var i := AnswerHasAttempt(tape, first + 1, ROUTER_ATTEMPTS, true);
      assert RouterReplies(tape, first, i);
    }
  }

  lemma ThreeWork(tape: Tape, k: nat)
    ensures WorkFrom(tape, k, 3) <==> ThreeFine(tape, k)
  {
    if ThreeFine(tape, k) || WorkFrom(tape, k, 3) {
      assert Works(tape, k) && Works(tape, k + 1) && Works(tape, k + 2);
    }
  }

  lemma BringAt(tape: Tape, start: nat, j: nat)
    ensures BringEnd(tape, start) == Some(start + 5 + 2 * j) <==>
              WorkFrom(tape, start, 3) && RouterReplies(tape, start + 3, j)
  {
    ThreeWork(tape, start);
    RouterExactly(tape, start + 3);
  }

  lemma BringAttempt(tape: Tape, start: nat) returns (j: nat)
    requires BringEnd(tape, start).Some?
    ensures BringEnd(tape, start) == Some(start + 5 + 2 * j)
  {
    j := AnswerHasAttempt(tape, start + 4, ROUTER_ATTEMPTS, true);
  }

  lemma SixWork(tape: Tape, k: nat)
    ensures WorkFrom(tape, k, 6) <==> WorkFrom(tape, k, 3) && WorkFrom(tape, k + 3, 3)
  {
  }

  /** Where the swap of a rollback begins. */
  lemma SwapAt(tape: Tape, start: nat, j: nat)
    ensures ThreeFine(tape, start) && BringEnd(tape, start + 3) == Some(start + 8 + 2 * j) <==> SwapsVia(tape, start, j)
  {
    ThreeWork(tape, start);
    SixWork(tape, start);
    BringAt(tape, start + 3, j);
  }

  /** A rollback succeeds on exactly these tapes. */
  lemma RollsBackExactly(tape: Tape, start: nat)
    ensures RollsBack(tape, start) <==>
              && ThreeFine(tape, start) && BringEnd(tape, start + 3).Some?
              && ThreeFine(tape, BringEnd(tape, start + 3).value)
  {
    if BringEnd(tape, start + 3).Some? {
      var j := BringAttempt(tape, start + 3);
      SwapAt(tape, start, j);
      ThreeWork(tape, start + 8 + 2 * j);
    }
    if j: nat :| SwapsVia(tape, start, j) && WorkFrom(tape, start + 8 + 2 * j, 3) {
      SwapAt(tape, start, j);
      ThreeWork(tape, start + 8 + 2 * j);
    }
  }

  lemma SwapCutAt(tape: Tape, start: nat, j: nat)
    ensures SwapCutVia(tape, start, j) <==>
              && ThreeFine(tape, start) && BringEnd(tape, start + 3) == Some(start + 8 + 2 * j)
              && CutAfterSwap(tape, start + 8 + 2 * j)
    ensures PutBack(tape, start + 10 + 2 * j) <==>
              Works(tape, start + 10 + 2 * j) && TickAt(tape, start + 11 + 2 * j).ok
  {
    SwapAt(tape, start, j);
    FineIsWorks(tape, start + 8 + 2 * j);
    FineIsWorks(tape, start + 10 + 2 * j);
  }

  lemma LosesExactly(tape: Tape, start: nat)
    ensures SwapCut(tape, start) <==>
              && ThreeFine(tape, start) && BringEnd(tape, start + 3).Some?
              && CutAfterSwap(tape, BringEnd(tape, start + 3).value)
    ensures LosesPrevious(tape, start) <==>
              SwapCut(tape, start) && PutBack(tape, BringEnd(tape, start + 3).value + 2)
  {
    if BringEnd(tape, start + 3).Some? {
      var j := BringAttempt(tape, start + 3);
      SwapCutAt(tape, start, j);
    }
    forall j: nat | SwapCutVia(tape, start, j)
      ensures BringEnd(tape, start + 3) == Some(start + 8 + 2 * j)
      ensures CutAfterSwap(tape, start + 8 + 2 * j)
      ensures PutBack(tape, start + 10 + 2 * j) <==>
                Works(tape, start + 10 + 2 * j) && TickAt(tape, start + 11 + 2 * j).ok {
      SwapCutAt(tape, start, j);
    }
  }

  /** The commands before the trap, up to the copy of `active`, with the manager answering at attempt `i`. */
  lemma PreparedAt(tape: Tape, vetted: Content -> bool, action: Action, named: bool, start: nat, i: nat)
    ensures var first := if action == Deploy then start + 1 else start;
            var post := first + 2 * i + 1;
            PreparedEnd(tape, vetted, action, named, start) == Some(post + 3) <==>
              && (action == Deploy ==> Works(tape, start)) && ManagerReplies(tape, first, i)
              && (action == Add ==> named) && PublishesAt(tape, vetted, post) && WorkFrom(tape, post, 3)
  {
    var first := if action == Deploy then start + 1 else start;
    FineIsWorks(tape, start);
    ManagerExactly(tape, first);
    ThreeWork(tape, first + 2 * i + 1);
  }

  lemma GeneratesAt(tape: Tape, vetted: Content -> bool, action: Action, named: bool, start: nat, i: nat, j: nat)
    ensures var first := if action == Deploy then start + 1 else start;
            var post := first + 2 * i + 1;
            GeneratesVia(tape, vetted, action, named, start, i, j) <==>
              && PreparedEnd(tape, vetted, action, named, start) == Some(post + 3)
              && BringEnd(tape, post + 3) == Some(post + 8 + 2 * j)
  {
    var first := if action == Deploy then start + 1 else start;
    var post := first + 2 * i + 1;
    PreparedAt(tape, vetted, action, named, start, i);
    SixWork(tape, post);
    BringAt(tape, post + 3, j);
  }

  lemma PreparedAttempt(tape: Tape, vetted: Content -> bool, action: Action, named: bool, start: nat) returns (i: nat)
    requires PreparedEnd(tape, vetted, action, named, start).Some?
    ensures var first := if action == Deploy then start + 1 else start;
            PreparedEnd(tape, vetted, action, named, start) == Some(first + 2 * i + 4)
  {
    i := AnswerHasAttempt(tape, if action == Deploy then start + 1 else start, MANAGER_ATTEMPTS, false);
  }

  /** An action that generates succeeds on exactly these tapes. */
  lemma GeneratesExactly(tape: Tape, vetted: Content -> bool, action: Action, named: bool, start: nat)
    ensures Generates(tape, vetted, action, named, start) <==>
              var k := PreparedEnd(tape, vetted, action, named, start); k.Some? && BringEnd(tape, k.value).Some?
  {
    var end := PreparedEnd(tape, vetted, action, named, start);
    if end.Some? && BringEnd(tape, end.value).Some? {
      var i := PreparedAttempt(tape, vetted, action, named, start);
      var j := BringAttempt(tape, end.value);
      GeneratesAt(tape, vetted, action, named, start, i, j);
    }
    if i: nat, j: nat :| GeneratesVia(tape, vetted, action, named, start, i, j) {
      GeneratesAt(tape, vetted, action, named, start, i, j);
    }
  }

  // ---- undisturbed runs ---------------------------------------------------------------------

  /** If everything works, answers at once and the request publishes, only an add without a name is refused. */
  lemma UndisturbedGenerates(tape: Tape, vetted: Content -> bool, action: Action, named: bool, start: nat)
    requires action != Rollback
    requires forall k :: start <= k < start + 10 ==> Replies(tape, k)
    requires PublishesAt(tape, vetted, if action == Deploy then start + 2 else start + 1)
    ensures Generates(tape, vetted, action, named, start) <==> (action == Add ==> named)
  {
    var first := if action == Deploy then start + 1 else start;
    assert Replies(tape, start) && Replies(tape, first) && Replies(tape, first + 7) && Replies(tape, first + 8);
    RepliesWork(tape, start, 10);
    if action == Add ==> named {
      assert GeneratesVia(tape, vetted, action, named, start, 0, 0);
    }
  }

  lemma RepliesWork(tape: Tape, start: nat, count: nat)
    requires forall k :: start <= k < start + count ==> Replies(tape, k)
    ensures WorkFrom(tape, start, count)
  {
    forall k | start <= k < start + count ensures Works(tape, k) {
      assert Replies(tape, k);
    }
  }

  lemma UndisturbedRollsBack(tape: Tape, start: nat)
    requires forall k :: start <= k < start + 11 ==> Replies(tape, k)
    ensures RollsBack(tape, start)
  {
    assert Replies(tape, start + 6) && Replies(tape, start + 7);
    RepliesWork(tape, start, 11);
    assert SwapsVia(tape, start, 0);
  }

  /** Without an interrupt at the swap nothing is lost. */
  lemma UncutKeepsPrevious(tape: Tape, start: nat)
    requires forall k: nat :: start <= k ==> TickAt(tape, k).interrupt != Signal
    ensures !LosesPrevious(tape, start)
  {
  }
}
