/** Which turn is whose, and in which order requests were answered. */
module TransactionAnswers {
  import opened Wrappers
  import opened Generation
  import opened Transaction
  import opened TransactionInvariant

  predicate HasTurn(th: Thread) {
    th.job.Update? && th.pc != WantMu
  }

  predicate OwnsTurn(th: Thread, t: nat, history: seq<Turn>, i: nat) {
    && th.job.Update? && i < |history|
    && history[i].tid == t && history[i].add == th.job.add && Agrees(history[i].outcome, th.result)
  }

  /** Every update that has held the lock has one turn, decided as its caller is answered. */
  predicate TurnsOwned(s: State) {
    && (forall t :: t in s.log.turnOf ==> t in s.threads && HasTurn(s.threads[t]))
    && (forall t :: t in s.threads && HasTurn(s.threads[t]) ==> t in s.log.turnOf)
    && (forall t :: t in s.log.turnOf ==> OwnsTurn(s.threads[t], t, s.log.history, s.log.turnOf[t]))
    && (forall i :: 0 <= i < |s.log.history| ==>
          s.log.history[i].tid in s.log.turnOf && s.log.turnOf[s.log.history[i].tid] == i)
  }

  /** The last turn belongs to the update that holds the lock. */
  predicate LastIsHolders(s: State) {
    Holder(s).Some? ==> s.log.history != [] && s.log.history[|s.log.history| - 1].tid == s.mu.value
  }

  /** Updates answered before a request arrived have earlier turns than it has, or than it was shown. */
  ghost predicate RealTime(s: State) {
    && (forall t :: t in s.log.before ==> t in s.threads && s.log.before[t] <= Answered(s))
    && (forall t, u :: t in s.log.before && u in s.log.before[t] && t in s.log.turnOf ==>
          u in s.log.turnOf && s.log.turnOf[u] < s.log.turnOf[t])
    && (forall k :: 0 <= k < |s.log.lists| ==> s.log.lists[k].tid in s.log.before && Shown(s, s.log.lists[k]))
  }

  ghost predicate Shown(s: State, answer: ListAnswer) {
    answer.tid in s.log.before ==> forall u :: u in s.log.before[answer.tid] ==>
      u in s.log.turnOf && s.log.turnOf[u] < answer.turns
  }

  predicate AllArrived(s: State) {
    forall t :: t in s.threads ==> t in s.log.before
  }

  ghost predicate Order(s: State) {
    TurnsOwned(s) && LastIsHolders(s) && RealTime(s) && AllArrived(s)
  }

  // ---- what a step tells the observer ---------------------------------------------

  predicate Enters(s: State, tid: nat, s': State)
    requires tid in s.threads
  {
    && s.threads[tid].pc == WantMu && s.threads[tid].job.Update? && tid in s'.threads
    && s'.log == Entered(s.log, tid, s.threads[tid].job.add) && s'.threads[tid].result == Unanswered
      && s'.threads[tid].pc == AttemptLock
  }

  predicate SameNotes(log: Log, log': Log) {
    log'.turnOf == log.turnOf && log'.before == log.before && log'.lists == log.lists
  }

  function Last<T>(items: seq<T>): T
    requires items != []
  {
    items[|items| - 1]
  }

  predicate Decides(s: State, tid: nat, s': State)
    requires tid in s.threads
  {
    && s.threads[tid].job.Update? && InProgress(s.threads[tid].pc) && tid in s'.threads
    && SameNotes(s.log, s'.log) && s'.threads[tid].pc == RecordLock && s'.log.history != []
    && var outcome := Last(s'.log.history).outcome;
       s'.log.history == Decide(s.log, outcome).history && Agrees(outcome, s'.threads[tid].result)
  }

  predicate Lists(log: Log, tid: nat, answer: ListAnswer, log': Log) {
    log'.lists == log.lists + [answer] && answer.tid == tid && answer.turns == |log.history|
  }

  predicate Tells(s: State, tid: nat, s': State)
    requires tid in s.threads
  {
    && (s.threads[tid].pc == WantMu ==> !s.threads[tid].job.Update?) && tid in s'.threads
    && s'.threads[tid].result == s.threads[tid].result && s'.threads[tid].pc != WantMu
    && s'.log.history == s.log.history && s'.log.turnOf == s.log.turnOf && s'.log.before == s.log.before
    && (s'.log.lists == s.log.lists || (s'.log.lists != [] && Lists(s.log, tid, Last(s'.log.lists), s'.log)))
  }

  predicate Told(s: State, tid: nat, s': State)
    requires tid in s.threads
  {
    Enters(s, tid, s') || Decides(s, tid, s') || Tells(s, tid, s')
  }

  lemma MuTells(s: State, tid: nat, c: Choice, tools: Tools)
    requires Enabled(s, tid) && JobOk(s.threads[tid]) && s.threads[tid].pc in {WantMu, UnlockMu, ListRead}
    ensures Told(s, tid, Next(s, tid, c, tools))
  {
  }

  lemma HealthTells(s: State, tid: nat, c: Choice, tools: Tools)
    requires Enabled(s, tid) && JobOk(s.threads[tid])
              && s.threads[tid].pc in {AttemptLock, AttemptUnlock, RecordLock, RecordUnlock}
    ensures Told(s, tid, Next(s, tid, c, tools))
  {
  }

  lemma ReadTells(s: State, tid: nat, c: Choice, tools: Tools)
    requires Enabled(s, tid) && JobOk(s.threads[tid]) && s.threads[tid].pc in {HealthLock, HealthRead, HealthUnlock}
    ensures Told(s, tid, Next(s, tid, c, tools))
  {
  }

  lemma RecordTells(s: State, tid: nat, c: Choice, tools: Tools)
    requires Enabled(s, tid) && JobOk(s.threads[tid])
              && s.threads[tid].pc in {RecordError, RecordSuccess, RecordNodes, RecordSkipped}
    ensures Told(s, tid, Next(s, tid, c, tools))
  {
  }

  lemma BuildTells(s: State, tid: nat, c: Choice, tools: Tools)
    requires Enabled(s, tid) && JobOk(s.threads[tid]) && s.threads[tid].pc in {ReadState, Build}
    requires s.log.history != []
    ensures Told(s, tid, Next(s, tid, c, tools))
  {
  }

  lemma CandidateTells(s: State, tid: nat, c: Choice, tools: Tools)
    requires Enabled(s, tid) && JobOk(s.threads[tid])
              && s.threads[tid].pc in {CreateCandidate, WriteCandidate, Validate}
    requires s.log.history != []
    ensures Told(s, tid, Next(s, tid, c, tools))
  {
  }

  lemma PersistTells(s: State, tid: nat, c: Choice, tools: Tools)
    requires Enabled(s, tid) && JobOk(s.threads[tid]) && s.threads[tid].pc in {CreateState, WriteState, RenameState}
    requires s.log.history != []
    ensures Told(s, tid, Next(s, tid, c, tools))
  {
  }

  lemma RollbackTells(s: State, tid: nat, c: Choice, tools: Tools)
    requires Enabled(s, tid) && JobOk(s.threads[tid])
              && s.threads[tid].pc in {CreateRollback, WriteRollback, RenameRollback}
    requires s.log.history != []
    ensures Told(s, tid, Next(s, tid, c, tools))
  {
  }

  lemma PublishTells(s: State, tid: nat, c: Choice, tools: Tools)
    requires Enabled(s, tid) && JobOk(s.threads[tid]) && s.threads[tid].pc in {RenameOutput}
    requires s.log.history != []
    ensures Told(s, tid, Next(s, tid, c, tools))
  {
  }

  lemma StepTells(s: State, tid: nat, c: Choice, tools: Tools)
    requires Enabled(s, tid) && JobOk(s.threads[tid])
    requires s.threads[tid].job.Update? && InProgress(s.threads[tid].pc) ==> s.log.history != []
    ensures Told(s, tid, Next(s, tid, c, tools))
  {
    var pc := s.threads[tid].pc;
    if pc in {WantMu, UnlockMu, ListRead} {
      MuTells(s, tid, c, tools);
    } else if pc in {AttemptLock, AttemptUnlock, RecordLock, RecordUnlock} {
      HealthTells(s, tid, c, tools);
    } else if pc in {HealthLock, HealthRead, HealthUnlock} {
      ReadTells(s, tid, c, tools);
    } else if pc in {RecordError, RecordSuccess, RecordNodes, RecordSkipped} {
      RecordTells(s, tid, c, tools);
    } else if pc in {ReadState, Build} {
      BuildTells(s, tid, c, tools);
    } else if pc in {CreateCandidate, WriteCandidate, Validate} {
      CandidateTells(s, tid, c, tools);
    } else if pc in {CreateState, WriteState, RenameState} {
      PersistTells(s, tid, c, tools);
    } else if pc in {CreateRollback, WriteRollback, RenameRollback} {
      RollbackTells(s, tid, c, tools);
    } else {
      PublishTells(s, tid, c, tools);
    }
  }

  // ---- what the order keeps ----------------------------------------------------------

  /** The thread moves; it stays one with a turn or without. */
  predicate Frame(s: State, tid: nat, s': State) {
    && tid in s.threads && tid in s'.threads
    && s'.threads == s.threads[tid := s'.threads[tid]]
    && s'.threads[tid].job == s.threads[tid].job
    && s.threads[tid].pc != Done && s'.threads[tid].pc != WantMu
  }

  lemma EntersKeepsTurns(s: State, tid: nat, s': State)
    requires TurnsOwned(s) && Frame(s, tid, s') && Enters(s, tid, s')
    ensures TurnsOwned(s')
  {
  }

  lemma EntersKeepsRealTime(s: State, tid: nat, s': State)
    requires TurnsOwned(s) && RealTime(s) && Frame(s, tid, s') && Enters(s, tid, s')
    ensures RealTime(s')
  {
    assert Answered(s) <= Answered(s');
    forall k | 0 <= k < |s'.log.lists| ensures Shown(s', s'.log.lists[k]) {
      assert Shown(s, s.log.lists[k]);
    }
  }

  lemma DecidesKeepsTurns(s: State, tid: nat, s': State)
    requires TurnsOwned(s) && Frame(s, tid, s') && Decides(s, tid, s')
    requires s.log.history != [] && Last(s.log.history).tid == tid
    ensures TurnsOwned(s')
  {
  }

  lemma TellsKeepsTurns(s: State, tid: nat, s': State)
    requires TurnsOwned(s) && Frame(s, tid, s') && Tells(s, tid, s')
    ensures TurnsOwned(s')
  {
  }

  lemma SameNotesKeepRealTime(s: State, tid: nat, s': State)
    requires RealTime(s) && Frame(s, tid, s') && SameNotes(s.log, s'.log)
    ensures RealTime(s')
  {
    assert Answered(s) <= Answered(s');
    forall k | 0 <= k < |s'.log.lists| ensures Shown(s', s'.log.lists[k]) {
      assert Shown(s, s.log.lists[k]);
    }
  }

  lemma ListKeepsRealTime(s: State, tid: nat, s': State, answer: ListAnswer)
    requires TurnsOwned(s) && RealTime(s) && AllArrived(s) && Frame(s, tid, s')
    requires s'.log.turnOf == s.log.turnOf && s'.log.before == s.log.before && Lists(s.log, tid, answer, s'.log)
    ensures RealTime(s')
  {
    assert Answered(s) <= Answered(s');
    forall k | 0 <= k < |s'.log.lists| ensures Shown(s', s'.log.lists[k]) {
      if k < |s.log.lists| {
        assert Shown(s, s.log.lists[k]);
      }
    }
  }

  lemma ToldKeepsTurns(s: State, tid: nat, s': State)
    requires Order(s) && Frame(s, tid, s') && Told(s, tid, s')
    requires Decides(s, tid, s') ==> Holder(s).Some? && s.mu == Some(tid)
    ensures TurnsOwned(s')
  {
    if Enters(s, tid, s') {
      EntersKeepsTurns(s, tid, s');
    } else if Decides(s, tid, s') {
      DecidesKeepsTurns(s, tid, s');
    } else {
      TellsKeepsTurns(s, tid, s');
    }
  }

  lemma ToldKeepsRealTime(s: State, tid: nat, s': State)
    requires Order(s) && Frame(s, tid, s') && Told(s, tid, s')
    ensures RealTime(s')
  {
    if Enters(s, tid, s') {
      EntersKeepsRealTime(s, tid, s');
    } else if SameNotes(s.log, s'.log) {
      SameNotesKeepRealTime(s, tid, s');
    } else {
      ListKeepsRealTime(s, tid, s', Last(s'.log.lists));
    }
  }

  lemma ToldKeepsLast(s: State, tid: nat, s': State)
    requires LocksOk(s) && Enabled(s, tid) && Moves(s, tid, s') && LastIsHolders(s) && Told(s, tid, s')
    ensures LastIsHolders(s')
  {
    if s.threads[tid].job.Update? {
      HolderMoves(s, tid, s');
    } else {
      HolderStays(s, tid, s');
    }
  }

  lemma StepKeepsOrder(s: State, tid: nat, c: Choice, tools: Tools)
    requires Inv(s, tools) && Order(s) && Enabled(s, tid)
    ensures Order(Next(s, tid, c, tools))
  {
    var s' := Next(s, tid, c, tools);
    InProgressHasTurn(s, tid, tools);
    StepKeepsLocks(s, tid, c, tools);
    StepTells(s, tid, c, tools);
    FrameOf(s, tid, s');
    ToldKeepsTurns(s, tid, s');
    ToldKeepsRealTime(s, tid, s');
    ToldKeepsLast(s, tid, s');
  }

  lemma InProgressHasTurn(s: State, tid: nat, tools: Tools)
    requires Inv(s, tools) && tid in s.threads
    ensures s.threads[tid].job.Update? && InProgress(s.threads[tid].pc) ==>
              s.log.history != [] && Holder(s).Some? && s.mu == Some(tid)
  {
  }

  lemma FrameOf(s: State, tid: nat, s': State)
    requires LocksOk(s) && Enabled(s, tid) && Moves(s, tid, s') && Told(s, tid, s')
    ensures Frame(s, tid, s')
  {
  }

  lemma ArrivalKeepsTurns(s: State, tid: nat, job: Job)
    requires TurnsOwned(s) && tid !in s.threads
    ensures TurnsOwned(Arrive(s, tid, job))
  {
  }

  lemma ArrivalKeepsRealTime(s: State, tid: nat, job: Job)
    requires TurnsOwned(s) && RealTime(s) && tid !in s.threads
    ensures RealTime(Arrive(s, tid, job))
  {
    var s' := Arrive(s, tid, job);
    assert Answered(s) <= Answered(s');
    assert tid !in s.log.before && tid !in s.log.turnOf;
    forall k | 0 <= k < |s'.log.lists|
      ensures s'.log.lists[k].tid in s'.log.before && Shown(s', s'.log.lists[k])
    {
      assert s.log.lists[k].tid in s.log.before && Shown(s, s.log.lists[k]);
    }
  }

  lemma ArrivalKeepsOrder(s: State, tid: nat, job: Job)
    requires LocksOk(s) && Order(s) && tid !in s.threads
    ensures Order(Arrive(s, tid, job))
  {
    SpawnKeepsLocks(s, Arrive(s, tid, job), tid, job);
    ArrivalKeepsTurns(s, tid, job);
    ArrivalKeepsRealTime(s, tid, job);
  }

  /** Turns, answers and arrivals stay in order over every run. */
  lemma {:induction false} RunKeepsOrder(s: State, events: seq<Event>, tools: Tools)
    requires Inv(s, tools) && Order(s)
    ensures Inv(Exec(s, events, tools), tools) && Order(Exec(s, events, tools))
  {
    if events == [] {
    } else {
      var before, event := Exec(s, events[..|events| - 1], tools), events[|events| - 1];
      RunKeepsOrder(s, events[..|events| - 1], tools);
      RunKeeps(s, events, tools);
      EventKeepsOrder(before, event, tools);
    }
  }

  lemma EventKeepsOrder(s: State, event: Event, tools: Tools)
    requires Inv(s, tools) && Order(s)
    ensures Order(Step(s, event, tools))
  {
    match event
    case Spawn(tid, job) => if tid !in s.threads { ArrivalKeepsOrder(s, tid, job); }
    case Run(tid, choice) => if Enabled(s, tid) { StepKeepsOrder(s, tid, choice, tools); }
    case Kill =>
  }
}
