/** Every list read and health read that has returned was answered, unless its own read failed. */
module TransactionReads {
  import opened Wrappers
  import opened Json
  import opened Generation
  import opened Transaction
  import opened TransactionInvariant
  import opened TransactionCauses

  ghost predicate Listed(log: Log, t: nat) {
    exists i :: 0 <= i < |log.lists| && log.lists[i].tid == t
  }

  ghost predicate Told(log: Log, t: nat) {
    exists i :: 0 <= i < |log.answers| && log.answers[i].tid == t
  }

  /** The read of a list failed, or the state file does not decode. */
  predicate Unreadable(n: Note) {
    n.fault || (n.read.Some? && n.read.value.Garbled?)
  }

  /** What has been answered to a request, by where it stands. */
  ghost predicate Replied(log: Log, threads: map<nat, Thread>, t: nat, n: Note) {
    if t !in threads then n == BLANK && !Listed(log, t) && !Told(log, t)
    else match threads[t].job
      case Update(_) => true
      case ListNames =>
        if threads[t].pc in {WantMu, ListRead} then n == BLANK && !Listed(log, t)
        else Listed(log, t) <==> !Unreadable(n)
      case ReadHealth =>
        if threads[t].pc in {HealthLock, HealthRead} then !Told(log, t) else Told(log, t)
  }

  // ---- what a step answers ------------------------------------------------------------

  /** The answers after a step of thread `tid`. */
  predicate Answers(s: State, tid: nat, c: Choice, log: Log)
    requires tid in s.threads
  {
    var pc := s.threads[tid].pc;
    && log.lists == (if pc == ListRead && !c.fails && !s.files.state.Garbled?
                     then s.log.lists + [ListAnswer(tid, Decoded(s.files.state), |s.log.history|)] else s.log.lists)
    && log.answers == (if pc == HealthRead then s.log.answers + [HealthAnswer(tid, s.health, Recorded(s))]
                       else s.log.answers)
  }

  lemma OuterAnswers(s: State, tid: nat, c: Choice, tools: Tools)
    requires Enabled(s, tid)
    requires s.threads[tid].pc in {WantMu, UnlockMu, ListRead, HealthLock, HealthRead, HealthUnlock}
              || s.threads[tid].pc in {RecordLock, RecordUnlock}
    ensures Answers(s, tid, c, Next(s, tid, c, tools).log)
  {
  }

  lemma PrepareAnswers(s: State, tid: nat, c: Choice, tools: Tools)
    requires Enabled(s, tid)
    requires s.threads[tid].pc in {AttemptLock, AttemptUnlock} || HasMuBeforePersist(s.threads[tid].pc)
    ensures Answers(s, tid, c, Next(s, tid, c, tools).log)
  {
  }

  lemma PersistAnswers(s: State, tid: nat, c: Choice, tools: Tools)
    requires Enabled(s, tid) && s.threads[tid].pc in {CreateState, WriteState, RenameState, RenameOutput}
    ensures Answers(s, tid, c, Next(s, tid, c, tools).log)
  {
  }

  lemma RollbackAnswers(s: State, tid: nat, c: Choice, tools: Tools)
    requires Enabled(s, tid) && Rolling(s.threads[tid].pc)
    ensures Answers(s, tid, c, Next(s, tid, c, tools).log)
  {
  }

  lemma RecordAnswers(s: State, tid: nat, c: Choice, tools: Tools)
    requires Enabled(s, tid) && s.threads[tid].pc in {RecordError, RecordSuccess, RecordNodes, RecordSkipped}
    ensures Answers(s, tid, c, Next(s, tid, c, tools).log)
  {
    RecordIsQuiet(s, tid, c, tools);
  }

  lemma StepAnswers(s: State, tid: nat, c: Choice, tools: Tools)
    requires Enabled(s, tid)
    ensures Answers(s, tid, c, Next(s, tid, c, tools).log)
  {
    var pc := s.threads[tid].pc;
    if pc in {WantMu, UnlockMu, ListRead, HealthLock, HealthRead, HealthUnlock, RecordLock, RecordUnlock} {
      OuterAnswers(s, tid, c, tools);
    } else if pc in {CreateState, WriteState, RenameState, RenameOutput} {
      PersistAnswers(s, tid, c, tools);
    } else if Rolling(pc) {
      RollbackAnswers(s, tid, c, tools);
    } else if pc in {RecordError, RecordSuccess, RecordNodes, RecordSkipped} {
      RecordAnswers(s, tid, c, tools);
    } else {
      PrepareAnswers(s, tid, c, tools);
    }
  }

  lemma AnswersAdd(s: State, tid: nat, c: Choice, log: Log, t: nat)
    requires tid in s.threads && Answers(s, tid, c, log)
    ensures Listed(log, t) <==> Listed(s.log, t) ||
                                (t == tid && s.threads[tid].pc == ListRead && !c.fails && !s.files.state.Garbled?)
    ensures Told(log, t) <==> Told(s.log, t) || (t == tid && s.threads[tid].pc == HealthRead)
  {
    if i :| 0 <= i < |s.log.lists| && s.log.lists[i].tid == t {
      assert log.lists[i] == s.log.lists[i];
    }
    if i :| 0 <= i < |s.log.answers| && s.log.answers[i].tid == t {
      assert log.answers[i] == s.log.answers[i];
    }
    if t == tid && s.threads[tid].pc == ListRead && !c.fails && !s.files.state.Garbled? {
      assert log.lists[|s.log.lists|].tid == t;
    }
    if t == tid && s.threads[tid].pc == HealthRead {
      assert log.answers[|s.log.answers|].tid == t;
    }
  }

  /** Where a step of a reader leads. */
  lemma ReaderIs(s: State, tid: nat, c: Choice, tools: Tools)
    requires Enabled(s, tid) && JobOk(s.threads[tid]) && !s.threads[tid].job.Update?
    ensures var s', pc := Next(s, tid, c, tools), s.threads[tid].pc;
            && tid in s'.threads && s'.threads[tid].job == s.threads[tid].job
            && s'.threads[tid].pc == (match pc
                 case WantMu => ListRead
                 case ListRead => UnlockMu
                 case HealthLock => HealthRead
                 case HealthRead => HealthUnlock
                 case _ => Done)
  {
  }

  lemma OwnStepReplies(s: State, t: nat, c: Choice, n: Note, tools: Tools)
    requires Enabled(s, t) && LocksOk(s) && Replied(s.log, s.threads, t, n)
    ensures var s' := Next(s, t, c, tools);
            Replied(s'.log, s'.threads, t, Witness(n, s.threads[t].pc, s.files.state, c))
  {
    StepKeepsLocks(s, t, c, tools);
    StepAnswers(s, t, c, tools);
    AnswersAdd(s, t, c, Next(s, t, c, tools).log, t);
    if !s.threads[t].job.Update? {
      ReaderIs(s, t, c, tools);
    }
  }

  lemma OtherStepReplies(s: State, tid: nat, c: Choice, t: nat, n: Note, tools: Tools)
    requires Enabled(s, tid) && LocksOk(s) && t != tid && Replied(s.log, s.threads, t, n)
    ensures var s' := Next(s, tid, c, tools); Replied(s'.log, s'.threads, t, n)
  {
    StepKeepsLocks(s, tid, c, tools);
    StepAnswers(s, tid, c, tools);
    AnswersAdd(s, tid, c, Next(s, tid, c, tools).log, t);
  }

  lemma SpawnReplies(s: State, tid: nat, job: Job, t: nat, n: Note, tools: Tools)
    requires Replied(s.log, s.threads, t, n)
    ensures var s' := Step(s, Spawn(tid, job), tools); Replied(s'.log, s'.threads, t, n)
  {
  }

  lemma {:induction false} RunReplies(state: File<seq<Subscription>>, output: File<Object>, events: seq<Event>, t: nat,
      tools: Tools)
    ensures var boot := Boot(state, output);
            var s := Exec(boot, events, tools);
            Replied(s.log, s.threads, t, Seen(boot, events, t, tools))
  {
    var boot := Boot(state, output);
    if events != [] {
      var front, event := events[..|events| - 1], events[|events| - 1];
      var s, n := Exec(boot, front, tools), Seen(boot, front, t, tools);
      BootHolds(state, output, tools);
      RunKeeps(boot, front, tools);
      RunReplies(state, output, front, t, tools);
      match event
      case Spawn(tid, job) => SpawnReplies(s, tid, job, t, n, tools);
      case Run(tid, c) =>
        if Enabled(s, tid) {
          if tid == t {
            OwnStepReplies(s, t, c, n, tools);
          } else {
            OtherStepReplies(s, tid, c, t, n, tools);
          }
        }
      case Kill =>
    }
  }

  /** A list request that has returned was shown a list exactly if its own read went well. */
  lemma ListsAreAnswered(state: File<seq<Subscription>>, output: File<Object>, events: seq<Event>, t: nat,
      tools: Tools)
    requires var s := Exec(Boot(state, output), events, tools);
             t in s.threads && s.threads[t].pc == Done && s.threads[t].job.ListNames?
    ensures Listed(Exec(Boot(state, output), events, tools).log, t)
            <==> !Unreadable(Seen(Boot(state, output), events, t, tools))
  {
    RunReplies(state, output, events, t, tools);
  }

  /** A health request that has returned was told the health. */
  lemma HealthIsAnswered(state: File<seq<Subscription>>, output: File<Object>, events: seq<Event>, t: nat,
      tools: Tools)
    requires var s := Exec(Boot(state, output), events, tools);
             t in s.threads && s.threads[t].pc == Done && s.threads[t].job.ReadHealth?
    ensures Told(Exec(Boot(state, output), events, tools).log, t)
  {
    RunReplies(state, output, events, t, tools);
  }

  // ---- what requests leave alone ----------------------------------------------------------

  predicate Adds(job: Job) {
    job.Update? && job.add.Some?
  }

  predicate ListStays(s: State, s': State) {
    s'.files.state == s.files.state && s'.files.stateTemp == s.files.stateTemp && s'.log.versions == s.log.versions
  }

  lemma PreparingLeavesList(s: State, tid: nat, c: Choice, tools: Tools)
    requires Enabled(s, tid)
    requires s.threads[tid].pc in {AttemptLock, AttemptUnlock} || HasMuBeforePersist(s.threads[tid].pc)
    ensures ListStays(s, Next(s, tid, c, tools))
  {
  }

  lemma PublishingLeavesList(s: State, tid: nat, c: Choice, tools: Tools)
    requires Enabled(s, tid) && s.threads[tid].pc == RenameOutput
    ensures ListStays(s, Next(s, tid, c, tools))
  {
  }

  lemma LockingLeavesFiles(s: State, tid: nat, c: Choice, tools: Tools)
    requires Enabled(s, tid)
    requires s.threads[tid].pc in {WantMu, UnlockMu, ListRead, HealthLock, HealthRead, HealthUnlock, RecordLock,
              RecordUnlock}
    ensures ListStays(s, Next(s, tid, c, tools)) && Next(s, tid, c, tools).files == s.files
  {
  }

  lemma RecordingLeavesFiles(s: State, tid: nat, c: Choice, tools: Tools)
    requires Enabled(s, tid) && s.threads[tid].pc in {RecordError, RecordSuccess, RecordNodes, RecordSkipped}
    ensures ListStays(s, Next(s, tid, c, tools))
  {
    RecordIsQuiet(s, tid, c, tools);
    StepIsNote(s, tid, c, tools);
  }

  /** Only an update that adds something writes the list, and the requests that read change no file. */
  lemma OnlyAddsWriteTheList(s: State, tid: nat, c: Choice, tools: Tools)
    requires Inv(s, tools) && Enabled(s, tid) && !Adds(s.threads[tid].job)
    ensures ListStays(s, Next(s, tid, c, tools))
    ensures !s.threads[tid].job.Update? ==> Next(s, tid, c, tools).files == s.files
  {
    var pc := s.threads[tid].pc;
    if s.threads[tid].job.Update? && HoldsMu(pc) {
      Outset(s, tid, tools);
    }
    if pc in {WantMu, UnlockMu, ListRead, HealthLock, HealthRead, HealthUnlock, RecordLock, RecordUnlock} {
      LockingLeavesFiles(s, tid, c, tools);
    } else if pc in {RecordError, RecordSuccess, RecordNodes, RecordSkipped} {
      RecordingLeavesFiles(s, tid, c, tools);
    } else if pc == RenameOutput {
      PublishingLeavesList(s, tid, c, tools);
    } else {
      PreparingLeavesList(s, tid, c, tools);
    }
  }
}
