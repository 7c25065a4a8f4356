/** What those who send requests may rely on: their answers, the order of them, and crashes. */
module TransactionRequests {
  import opened Wrappers
  import opened Json
  import opened Generation
  import opened Transaction
  import opened TransactionInvariant
  import opened TransactionAnswers
  import opened TransactionGuarantees

  lemma Reached(state: File<seq<Subscription>>, output: File<Object>, events: seq<Event>, tools: Tools)
    ensures var s := Exec(Boot(state, output), events, tools); Inv(s, tools) && Order(s)
  {
    BootHolds(state, output, tools);
    RunKeepsOrder(Boot(state, output), events, tools);
  }

  // ---- answers and turns ---------------------------------------------------------

  /** The update `t` was answered as its one turn was decided. */
  ghost predicate AnsweredAsDecided(s: State, t: nat) {
    t in s.threads && t in s.log.turnOf &&
    var th, i := s.threads[t], s.log.turnOf[t];
    && i < |s.log.history| && s.log.history[i].tid == t && th.job == Update(s.log.history[i].add)
    && (th.result == Succeeded <==> s.log.history[i].outcome.Committed?)
    && (th.result == Failed <==> s.log.history[i].outcome.Rejected?)
    && th.result != Unanswered
    && forall j :: 0 <= j < |s.log.history| && s.log.history[j].tid == t ==> j == i
  }

  lemma DoneIsAnswered(s: State, t: nat)
    requires LocksOk(s) && TurnsOk(s.log.history, Holder(s)) && TurnsOwned(s) && LastIsHolders(s)
    requires t in Answered(s)
    ensures AnsweredAsDecided(s, t)
  {
    var i := s.log.turnOf[t];
    assert OwnsTurn(s.threads[t], t, s.log.history, i);
    if s.log.history[i].outcome.Pending? {
      assert false;
    }
  }

  /** In any run an update is answered with success exactly when its turn is committed. */
  lemma AnswersAreDecisions(state: File<seq<Subscription>>, output: File<Object>, events: seq<Event>, t: nat,
      tools: Tools)
    requires t in Answered(Exec(Boot(state, output), events, tools))
    ensures AnsweredAsDecided(Exec(Boot(state, output), events, tools), t)
  {
    Reached(state, output, events, tools);
    DoneIsAnswered(Exec(Boot(state, output), events, tools), t);
  }

  // ---- the order of answers --------------------------------------------------------

  /** A later turn put another subscription in the place of this one. */
  ghost predicate Replaces(turns: seq<Turn>, first: nat, name: string) {
    exists j :: first < j < |turns| && turns[j].outcome.Committed? && turns[j].add.Some?
      && turns[j].add.value.name == name
  }

  lemma ShownOrReplaced(start: seq<Subscription>, turns: seq<Turn>, i: nat)
    requires i < |turns| && turns[i].outcome.Committed? && turns[i].add.Some?
    ensures turns[i].add.value in SerialList(start, turns) || Replaces(turns, i, turns[i].add.value.name)
  {
    if !Replaces(turns, i, turns[i].add.value.name) {
      NoAddIsLost(start, turns, i);
    }
  }

  lemma ListShows(s: State, k: nat, u: nat, tools: Tools)
    requires Inv(s, tools) && Order(s) && s.log.clean && k < |s.log.lists|
    requires var t := s.log.lists[k].tid; t in s.log.before && u in s.log.before[t]
    requires u in s.threads && s.threads[u].result == Succeeded && s.threads[u].job.Update?
              && s.threads[u].job.add.Some?
    ensures var answer, add := s.log.lists[k], s.threads[u].job.add.value;
            u in s.log.turnOf && answer.turns <= |s.log.history| &&
            (add in answer.list || Replaces(s.log.history[..answer.turns], s.log.turnOf[u], add.name))
  {
    var answer := s.log.lists[k];
    assert Shown(s, answer);
    var turns := s.log.history[..answer.turns];
    assert turns[s.log.turnOf[u]] == s.log.history[s.log.turnOf[u]];
    assert OwnsTurn(s.threads[u], u, s.log.history, s.log.turnOf[u]);
    ShownOrReplaced(s.log.bootList, turns, s.log.turnOf[u]);
  }

  // ---- over two stretches of one run --------------------------------------------------

  lemma {:induction false} ExecInTwo(s: State, first: seq<Event>, second: seq<Event>, tools: Tools)
    ensures Exec(s, first + second, tools) == Exec(Exec(s, first, tools), second, tools)
  {
    if second == [] {
      assert first + second == first;
    } else {
      var n := |second| - 1;
      ExecInTwo(s, first, second[..n], tools);
      assert (first + second)[..|first + second| - 1] == first + second[..n];
    }
  }

  /** A request that has arrived stays, and so does an answer that was given. */
  predicate Remains(s: State, s': State, t: nat, u: nat) {
    && (t in s.log.before ==> t in s'.log.before && s'.log.before[t] == s.log.before[t])
    && (u in s.threads && s.threads[u].pc == Done ==> u in s'.threads && s'.threads[u] == s.threads[u])
  }

  lemma ToldRemains(s: State, tid: nat, s': State, t: nat, u: nat)
    requires Frame(s, tid, s') && Told(s, tid, s')
    ensures Remains(s, s', t, u)
  {
  }

  lemma StepRemains(s: State, event: Event, t: nat, u: nat, tools: Tools)
    requires Inv(s, tools) && Order(s) && !event.Kill?
    ensures Remains(s, Step(s, event, tools), t, u)
  {
    match event
    case Spawn(tid, job) =>
    case Run(tid, choice) =>
      if Enabled(s, tid) {
        InProgressHasTurn(s, tid, tools);
        StepKeepsLocks(s, tid, choice, tools);
        StepTells(s, tid, choice, tools);
        FrameOf(s, tid, Next(s, tid, choice, tools));
        ToldRemains(s, tid, Next(s, tid, choice, tools), t, u);
      }
  }

  lemma {:induction false} RunRemains(s: State, events: seq<Event>, t: nat, u: nat, tools: Tools)
    requires Inv(s, tools) && Order(s) && NoKill(events)
    ensures Remains(s, Exec(s, events, tools), t, u)
  {
    if events == [] {
    } else {
      var n := |events| - 1;
      RunRemains(s, events[..n], t, u, tools);
      RunKeepsOrder(s, events[..n], tools);
      StepRemains(Exec(s, events[..n], tools), events[n], t, u, tools);
    }
  }

  /** A request of its own thread comes in after the update `u` was answered with success. */
  predicate ComesAfter(s: State, u: nat, t: nat) {
    u in Answered(s) && s.threads[u].result == Succeeded && t !in s.threads
  }

  lemma ArrivalIsSeen(s: State, u: nat, t: nat, job: Job, tools: Tools)
    requires ComesAfter(s, u, t)
    ensures var arrived := Exec(s, [Spawn(t, job)], tools);
            && t in arrived.log.before && u in arrived.log.before[t]
            && u in arrived.threads && arrived.threads[u] == s.threads[u]
  {
    assert [Spawn(t, job)][..0] == [];
    assert Exec(s, [], tools) == s;
    assert Exec(s, [Spawn(t, job)], tools) == Arrive(s, t, job);
  }

  lemma ComesAfterStays(s: State, u: nat, t: nat, job: Job, rest: seq<Event>, tools: Tools)
    requires Inv(s, tools) && Order(s) && ComesAfter(s, u, t) && NoKill(rest)
    ensures var s' := Exec(s, [Spawn(t, job)] + rest, tools);
            && Inv(s', tools) && Order(s')
            && t in s'.log.before && u in s'.log.before[t] && u in s'.threads && s'.threads[u] == s.threads[u]
  {
    var first := [Spawn(t, job)];
    var arrived := Exec(s, first, tools);
    ArrivalIsSeen(s, u, t, job, tools);
    RunKeepsOrder(s, first, tools);
    ExecInTwo(s, first, rest, tools);
    RunRemains(arrived, rest, t, u, tools);
    RunKeepsOrder(arrived, rest, tools);
  }

  /**
   A list asked for after an add was answered with success shows the subscription, unless a
   later success had replaced the name by then.
   */
  lemma AnsweredAddIsListed(
      state: File<seq<Subscription>>, output: File<Object>, early: seq<Event>, rest: seq<Event>,
      u: nat, t: nat, k: nat, tools: Tools)
    requires RollbacksSucceed(Boot(state, output), early + ([Spawn(t, ListNames)] + rest), tools) && NoKill(rest)
    requires var s := Exec(Boot(state, output), early, tools);
             ComesAfter(s, u, t) && s.threads[u].job.add.Some?
    requires var s' := Exec(Boot(state, output), early + ([Spawn(t, ListNames)] + rest), tools);
             k < |s'.log.lists| && s'.log.lists[k].tid == t
    ensures var s' := Exec(Boot(state, output), early + ([Spawn(t, ListNames)] + rest), tools);
            var answer, add := s'.log.lists[k], Exec(Boot(state, output), early, tools).threads[u].job.add.value;
            && u in s'.log.turnOf && answer.turns <= |s'.log.history|
            && (add in answer.list || Replaces(s'.log.history[..answer.turns], s'.log.turnOf[u], add.name))
  {
    var boot, later := Boot(state, output), [Spawn(t, ListNames)] + rest;
    var s := Exec(boot, early, tools);
    Reached(state, output, early, tools);
    ExecInTwo(boot, early, later, tools);
    RunStaysClean(boot, early + later, tools);
    ComesAfterStays(s, u, t, ListNames, rest, tools);
    ListShows(Exec(s, later, tools), k, u, tools);
  }

  /** An update asked for after another was answered takes its turn after it. */
  lemma TurnsFollowAnswers(
      state: File<seq<Subscription>>, output: File<Object>, early: seq<Event>, rest: seq<Event>,
      u: nat, t: nat, add: Option<Subscription>, tools: Tools)
    requires NoKill(rest) && ComesAfter(Exec(Boot(state, output), early, tools), u, t)
    ensures var s' := Exec(Boot(state, output), early + ([Spawn(t, Update(add))] + rest), tools);
            t in s'.log.turnOf ==> u in s'.log.turnOf && s'.log.turnOf[u] < s'.log.turnOf[t]
  {
    var boot, later := Boot(state, output), [Spawn(t, Update(add))] + rest;
    Reached(state, output, early, tools);
    ExecInTwo(boot, early, later, tools);
    ComesAfterStays(Exec(boot, early, tools), u, t, Update(add), rest, tools);
  }

  // ---- crashes -------------------------------------------------------------------------

  /** The list a new process starts from is the serial one, or that with only the turn in progress applied. */
  lemma CrashKeepsAdds(state: File<seq<Subscription>>, output: File<Object>, events: seq<Event>, tools: Tools)
    requires RollbacksSucceed(Boot(state, output), events, tools)
    ensures var s := Exec(Boot(state, output), events, tools);
            var list, serial := Restart(s).log.bootList, SerialList(s.log.bootList, s.log.history);
            || list == serial
            || (s.log.history != [] && Last(s.log.history).outcome.Pending?
              && list == NextList(Update(Last(s.log.history).add), serial))
  {
    Reached(state, output, events, tools);
    RunStaysClean(Boot(state, output), events, tools);
    InvSurvivesCrash(Exec(Boot(state, output), events, tools), tools);
  }

  lemma InvSurvivesCrash(s: State, tools: Tools)
    requires Inv(s, tools) && s.log.clean
    ensures var list, serial := Restart(s).log.bootList, SerialList(s.log.bootList, s.log.history);
            || list == serial
            || (s.log.history != [] && Last(s.log.history).outcome.Pending?
              && list == NextList(Update(Last(s.log.history).add), serial))
  {
    if InWindow(Holder(s)) {
      var th := Holder(s).value;
      assert WorkOk(th, s.files, s.log.versions, tools);
      assert th.job == Update(Last(s.log.history).add);
    }
  }
}
