/** Why an update fails: never without a cause that can be named from the events and the job. */
module TransactionCauses {
  import opened Wrappers
  import opened Json
  import opened Generation
  import opened Transaction
  import opened TransactionInvariant

  // ---- what happened to one request -------------------------------------------------

  /** The steps at which the environment can make a request fail. */
  const FALLIBLE := {
    ReadState, Build, CreateCandidate, WriteCandidate, Validate, CreateState, WriteState, RenameState, RenameOutput,
    CreateRollback, WriteRollback, RenameRollback, ListRead
  }

  /** A failed operation, the state file when it was read, and what the generation was given. */
  datatype Note = Note(fault: bool, read: Option<File<seq<Subscription>>>, given: Option<Source>)

  const BLANK := Note(false, None, None)

  function Witness(n: Note, pc: Pc, file: File<seq<Subscription>>, c: Choice): Note {
    Note(
      n.fault || (pc in FALLIBLE && c.fails),
      if pc in {ReadState, ListRead} then Some(file) else n.read,
      if pc == Build then Some(c.source) else n.given)
  }

  /** What happened to a request since the process started, over any run. */
  function Seen(start: State, events: seq<Event>, tid: nat, tools: Tools): Note {
    if events == [] then BLANK else
    var n := |events| - 1;
    var s, seen := Exec(start, events[..n], tools), Seen(start, events[..n], tid, tools);
    match events[n]
    case Spawn(_, _) => seen
    case Run(t, c) =>
      if t == tid && Enabled(s, t) then Witness(seen, s.threads[t].pc, s.files.state, c) else seen
    case Kill => BLANK
  }

  /** No config the checker accepts comes out of that generation. */
  predicate Refused(source: Source, list: seq<Subscription>, tools: Tools) {
    match tools.generate(source.base, list, source.world)
    case None => true
    case Some(built) => !tools.validate(built.config)
  }

  predicate Excused(n: Note, job: Job, tools: Tools) {
    || n.fault
    || (n.read.Some? && n.read.value.Garbled?)
    || (n.read.Some? && n.given.Some? && Refused(n.given.value, NextList(job, Decoded(n.read.value)), tools))
  }

  // ---- a request and its note ---------------------------------------------------------

  predicate Rolling(pc: Pc) {
    pc in {CreateRollback, WriteRollback, RenameRollback}
  }

  predicate Returned(pc: Pc) {
    pc in RECORDING || pc in {UnlockMu, Done}
  }

  /** How the note of an update follows it. */
  predicate Follows(th: Thread, n: Note, tools: Tools) {
    && (!HasRead(th.pc) && !Returned(th.pc) ==> n == BLANK)
    && (HasRead(th.pc) ==> n.read.Some? && !n.read.value.Garbled? && Decoded(n.read.value) == th.list)
    && (th.pc == Build ==> n.given.None?)
    && (HasBuilt(th.pc) ==> n.given == Some(th.source))
    && (HasRead(th.pc) ==> (n.fault <==> Rolling(th.pc)))
    && (Returned(th.pc) ==> th.result != Unanswered && (th.result == Failed <==> Excused(n, th.job, tools)))
  }

  predicate Fits(s: State, tid: nat, n: Note, tools: Tools) {
    if tid in s.threads then s.threads[tid].job.Update? ==> Follows(s.threads[tid], n, tools) else n == BLANK
  }

  /** An update about to take a step, its note, and what the invariant says of it. */
  predicate Ready(s: State, tid: nat, n: Note, tools: Tools) {
    && Enabled(s, tid) && s.threads[tid].job.Update? && Follows(s.threads[tid], n, tools)
    && WorkOk(s.threads[tid], s.files, s.log.versions, tools)
  }

  lemma RejectedFollows(th: Thread, n: Note, tools: Tools)
    requires Excused(n, th.job, tools)
    ensures Follows(th.(pc := RecordLock, result := Failed), n, tools)
  {
  }

  lemma ReturnedFollows(th: Thread, pc: Pc, n: Note, tools: Tools)
    requires Follows(th, n, tools) && Returned(th.pc) && Returned(pc)
    ensures Follows(th.(pc := pc), n, tools)
  {
  }

  lemma BuiltFollows(th: Thread, pc: Pc, n: Note, tools: Tools)
    requires Follows(th, n, tools) && HasBuilt(th.pc) && HasBuilt(pc) && Rolling(pc) == Rolling(th.pc)
    ensures Follows(th.(pc := pc), n, tools)
  {
  }

  lemma SucceededFollows(th: Thread, n: Note, tools: Tools)
    requires Follows(th, n, tools) && HasBuilt(th.pc) && !n.fault
    requires th.next == NextList(th.job, th.list) && !Refused(th.source, th.next, tools)
    ensures Follows(th.(pc := RecordLock, result := Succeeded), n, tools)
  {
  }

  lemma SafeStepsLeaveNoMark(n: Note, pc: Pc, file: File<seq<Subscription>>, c: Choice)
    requires pc !in FALLIBLE
    ensures Witness(n, pc, file, c) == n
  {
  }

  // ---- the thread after each step ---------------------------------------------------------

  lemma ReleaseIs(s: State, tid: nat, c: Choice, tools: Tools)
    requires Enabled(s, tid) && s.threads[tid].pc == UnlockMu
    ensures var s' := Next(s, tid, c, tools); tid in s'.threads && s'.threads[tid] == s.threads[tid].(pc := Done)
  {
  }

  lemma AttemptIs(s: State, tid: nat, c: Choice, tools: Tools)
    requires Enabled(s, tid) && s.threads[tid].job.Update? && s.threads[tid].pc in {WantMu, AttemptLock, AttemptUnlock}
    ensures var s', th := Next(s, tid, c, tools), s.threads[tid];
            && tid in s'.threads && s'.threads[tid] == th.(pc := s'.threads[tid].pc)
            && s'.threads[tid].pc in {AttemptLock, AttemptUnlock, ReadState}
  {
  }

  lemma CandidateIs(s: State, tid: nat, c: Choice, tools: Tools)
    requires Enabled(s, tid) && s.threads[tid].pc in {CreateCandidate, WriteCandidate}
    ensures var s', th := Next(s, tid, c, tools), s.threads[tid];
            && tid in s'.threads
            && s'.threads[tid] ==
                 if c.fails then th.(pc := RecordLock, result := Failed)
                 else th.(pc := if th.pc == CreateCandidate then WriteCandidate else Validate)
  {
  }

  lemma PersistIs(s: State, tid: nat, c: Choice, tools: Tools)
    requires Enabled(s, tid) && s.threads[tid].pc in {CreateState, WriteState, RenameState}
    ensures var s', th := Next(s, tid, c, tools), s.threads[tid];
            && tid in s'.threads
            && s'.threads[tid] ==
                 if c.fails then th.(pc := RecordLock, result := Failed)
                 else th.(pc := if th.pc == CreateState then WriteState else if th.pc == WriteState then RenameState
                   else RenameOutput)
  {
  }

  lemma RollbackIs(s: State, tid: nat, c: Choice, tools: Tools)
    requires Enabled(s, tid) && Rolling(s.threads[tid].pc)
    ensures var s', th := Next(s, tid, c, tools), s.threads[tid];
            && tid in s'.threads
            && s'.threads[tid] ==
                 if c.fails || th.pc == RenameRollback then th.(pc := RecordLock, result := Failed)
                 else th.(pc := if th.pc == CreateRollback then WriteRollback else RenameRollback)
  {
  }

  lemma ReadIs(s: State, tid: nat, c: Choice, tools: Tools)
    requires Enabled(s, tid) && s.threads[tid].pc == ReadState
    ensures var s', th, file := Next(s, tid, c, tools), s.threads[tid], s.files.state;
            && tid in s'.threads
            && s'.threads[tid] ==
                 if c.fails || file.Garbled? then th.(pc := RecordLock, result := Failed)
                 else th.(pc := Build, list := Decoded(file), next := NextList(th.job, Decoded(file)))
  {
  }

  lemma BuildIs(s: State, tid: nat, c: Choice, tools: Tools)
    requires Enabled(s, tid) && s.threads[tid].pc == Build
    ensures var s', th := Next(s, tid, c, tools), s.threads[tid];
            var built := tools.generate(c.source.base, th.next, c.source.world);
            && tid in s'.threads
            && s'.threads[tid] ==
                 if c.fails || built.None? then th.(pc := RecordLock, result := Failed)
                 else th.(pc := CreateCandidate, built := built.value, source := c.source)
  {
  }

  lemma ValidateIs(s: State, tid: nat, c: Choice, tools: Tools)
    requires Enabled(s, tid) && s.threads[tid].pc == Validate && s.files.candidate.Whole?
    ensures var s', th := Next(s, tid, c, tools), s.threads[tid];
            && tid in s'.threads
            && s'.threads[tid] ==
                 if c.fails || !tools.validate(s.files.candidate.value) then th.(pc := RecordLock, result := Failed)
                 else th.(pc := if Persists(th) then CreateState else RenameOutput)
  {
  }

  lemma PublicationIs(s: State, tid: nat, c: Choice, tools: Tools)
    requires Enabled(s, tid) && s.threads[tid].pc == RenameOutput
    ensures var s', th := Next(s, tid, c, tools), s.threads[tid];
            && tid in s'.threads
            && s'.threads[tid] ==
                 if !c.fails then th.(pc := RecordLock, result := Succeeded)
                 else if Persists(th) then th.(pc := CreateRollback)
                 else th.(pc := RecordLock, result := Failed)
  {
  }

  // ---- the note after each step -------------------------------------------------------------

  predicate StepFollows(s: State, tid: nat, c: Choice, n: Note, tools: Tools)
    requires Enabled(s, tid)
  {
    var s' := Next(s, tid, c, tools);
    tid in s'.threads && Follows(s'.threads[tid], Witness(n, s.threads[tid].pc, s.files.state, c), tools)
  }

  lemma AttemptFollows(s: State, tid: nat, c: Choice, n: Note, tools: Tools)
    requires Ready(s, tid, n, tools) && s.threads[tid].pc in {WantMu, AttemptLock, AttemptUnlock}
    ensures StepFollows(s, tid, c, n, tools)
  {
    AttemptIs(s, tid, c, tools);
  }

  lemma ReadFollows(s: State, tid: nat, c: Choice, n: Note, tools: Tools)
    requires Ready(s, tid, n, tools) && s.threads[tid].pc == ReadState
    ensures StepFollows(s, tid, c, n, tools)
  {
    var th, n' := s.threads[tid], Witness(n, ReadState, s.files.state, c);
    ReadIs(s, tid, c, tools);
    if c.fails || s.files.state.Garbled? {
      RejectedFollows(th, n', tools);
    }
  }

  lemma BuildFollows(s: State, tid: nat, c: Choice, n: Note, tools: Tools)
    requires Ready(s, tid, n, tools) && s.threads[tid].pc == Build
    ensures StepFollows(s, tid, c, n, tools)
  {
    var th, n' := s.threads[tid], Witness(n, Build, s.files.state, c);
    BuildIs(s, tid, c, tools);
    if c.fails || tools.generate(c.source.base, th.next, c.source.world).None? {
      RejectedFollows(th, n', tools);
    }
  }

  lemma CandidateFollows(s: State, tid: nat, c: Choice, n: Note, tools: Tools)
    requires Ready(s, tid, n, tools) && s.threads[tid].pc in {CreateCandidate, WriteCandidate}
    ensures StepFollows(s, tid, c, n, tools)
  {
    var th, n' := s.threads[tid], Witness(n, s.threads[tid].pc, s.files.state, c);
    CandidateIs(s, tid, c, tools);
    if c.fails {
      RejectedFollows(th, n', tools);
    } else {
      BuiltFollows(th, if th.pc == CreateCandidate then WriteCandidate else Validate, n, tools);
    }
  }

  lemma ValidateFollows(s: State, tid: nat, c: Choice, n: Note, tools: Tools)
    requires Ready(s, tid, n, tools) && s.threads[tid].pc == Validate
    ensures StepFollows(s, tid, c, n, tools)
  {
    var th, n' := s.threads[tid], Witness(n, Validate, s.files.state, c);
    ValidateIs(s, tid, c, tools);
    if c.fails || !tools.validate(s.files.candidate.value) {
      RejectedFollows(th, n', tools);
    } else {
      BuiltFollows(th, if Persists(th) then CreateState else RenameOutput, n, tools);
    }
  }

  lemma PersistFollows(s: State, tid: nat, c: Choice, n: Note, tools: Tools)
    requires Ready(s, tid, n, tools) && s.threads[tid].pc in {CreateState, WriteState, RenameState}
    ensures StepFollows(s, tid, c, n, tools)
  {
    var th, n' := s.threads[tid], Witness(n, s.threads[tid].pc, s.files.state, c);
    PersistIs(s, tid, c, tools);
    if c.fails {
      RejectedFollows(th, n', tools);
    } else {
      BuiltFollows(th,
        if th.pc == CreateState then WriteState else if th.pc == WriteState then RenameState else RenameOutput,
        n, tools);
    }
  }

  lemma PublishFollows(s: State, tid: nat, c: Choice, n: Note, tools: Tools)
    requires Ready(s, tid, n, tools) && s.threads[tid].pc == RenameOutput
    ensures StepFollows(s, tid, c, n, tools)
  {
    var th, n' := s.threads[tid], Witness(n, RenameOutput, s.files.state, c);
    PublicationIs(s, tid, c, tools);
    if c.fails {
      RejectedFollows(th, n', tools);
    } else {
      SucceededFollows(th, n, tools);
    }
  }

  lemma RollbackFollows(s: State, tid: nat, c: Choice, n: Note, tools: Tools)
    requires Ready(s, tid, n, tools) && Rolling(s.threads[tid].pc)
    ensures StepFollows(s, tid, c, n, tools)
  {
    var th, n' := s.threads[tid], Witness(n, s.threads[tid].pc, s.files.state, c);
    RollbackIs(s, tid, c, tools);
    if c.fails || th.pc == RenameRollback {
      RejectedFollows(th, n', tools);
    }
  }

  lemma RecordFollows(s: State, tid: nat, c: Choice, n: Note, tools: Tools)
    requires Ready(s, tid, n, tools) && s.threads[tid].pc in {RecordError, RecordSuccess, RecordNodes, RecordSkipped}
    ensures StepFollows(s, tid, c, n, tools)
  {
    var th := s.threads[tid];
    StepIsNote(s, tid, c, tools);
    SafeStepsLeaveNoMark(n, th.pc, s.files.state, c);
    ReturnedFollows(th, AfterNote(th), n, tools);
  }

  lemma ReleaseFollows(s: State, tid: nat, c: Choice, n: Note, tools: Tools)
    requires Ready(s, tid, n, tools) && s.threads[tid].pc in {RecordLock, RecordUnlock, UnlockMu}
    ensures StepFollows(s, tid, c, n, tools)
  {
    var th := s.threads[tid];
    SafeStepsLeaveNoMark(n, th.pc, s.files.state, c);
    if th.pc == UnlockMu {
      ReleaseIs(s, tid, c, tools);
      ReturnedFollows(th, Done, n, tools);
    } else {
      StepIsLock(s, tid, c, tools);
      ReturnedFollows(th, if th.pc == RecordLock then RecordError else UnlockMu, n, tools);
    }
  }

  lemma UpdateFollows(s: State, tid: nat, c: Choice, n: Note, tools: Tools)
    requires Ready(s, tid, n, tools) && JobOk(s.threads[tid])
    ensures StepFollows(s, tid, c, n, tools)
  {
    var pc := s.threads[tid].pc;
    if pc in {WantMu, AttemptLock, AttemptUnlock} {
      AttemptFollows(s, tid, c, n, tools);
    } else if pc == ReadState {
      ReadFollows(s, tid, c, n, tools);
    } else if pc == Build {
      BuildFollows(s, tid, c, n, tools);
    } else if pc in {CreateCandidate, WriteCandidate} {
      CandidateFollows(s, tid, c, n, tools);
    } else if pc == Validate {
      ValidateFollows(s, tid, c, n, tools);
    } else if pc in {CreateState, WriteState, RenameState} {
      PersistFollows(s, tid, c, n, tools);
    } else if pc == RenameOutput {
      PublishFollows(s, tid, c, n, tools);
    } else if Rolling(pc) {
      RollbackFollows(s, tid, c, n, tools);
    } else if pc in {RecordLock, RecordUnlock, UnlockMu} {
      ReleaseFollows(s, tid, c, n, tools);
    } else {
      RecordFollows(s, tid, c, n, tools);
    }
  }

  // ---- over runs ------------------------------------------------------------------------------

  lemma RunFitsOwn(s: State, tid: nat, c: Choice, n: Note, tools: Tools)
    requires Inv(s, tools) && Enabled(s, tid) && Fits(s, tid, n, tools)
    ensures Fits(Next(s, tid, c, tools), tid, Witness(n, s.threads[tid].pc, s.files.state, c), tools)
  {
    StepKeepsLocks(s, tid, c, tools);
    if s.threads[tid].job.Update? {
      if HoldsMu(s.threads[tid].pc) {
        Outset(s, tid, tools);
      }
      UpdateFollows(s, tid, c, n, tools);
    }
  }

  lemma RunFitsOther(s: State, tid: nat, c: Choice, t: nat, n: Note, tools: Tools)
    requires LocksOk(s) && Enabled(s, tid) && t != tid && Fits(s, t, n, tools)
    ensures Fits(Next(s, tid, c, tools), t, n, tools)
  {
    StepKeepsLocks(s, tid, c, tools);
  }

  lemma SpawnFits(s: State, tid: nat, job: Job, t: nat, n: Note, tools: Tools)
    requires Fits(s, t, n, tools)
    ensures Fits(Step(s, Spawn(tid, job), tools), t, n, tools)
  {
  }

  lemma {:induction false} NoteFits(state: File<seq<Subscription>>, output: File<Object>, events: seq<Event>, t: nat,
      tools: Tools)
    ensures var boot := Boot(state, output);
            Inv(Exec(boot, events, tools), tools)
            && Fits(Exec(boot, events, tools), t, Seen(boot, events, t, tools), tools)
  {
    var boot := Boot(state, output);
    BootHolds(state, output, tools);
    RunKeeps(boot, events, tools);
    if events != [] {
      var front, event := events[..|events| - 1], events[|events| - 1];
      var s, n := Exec(boot, front, tools), Seen(boot, front, t, tools);
      NoteFits(state, output, front, t, tools);
      match event
      case Spawn(tid, job) => SpawnFits(s, tid, job, t, n, tools);
      case Run(tid, c) =>
        if Enabled(s, tid) {
          if tid == t {
            RunFitsOwn(s, t, c, n, tools);
          } else {
            RunFitsOther(s, tid, c, t, n, tools);
          }
        }
      case Kill =>
    }
  }

  /** An update that has returned failed exactly if it has an excuse. */
  lemma FailsOnlyWithCause(state: File<seq<Subscription>>, output: File<Object>, events: seq<Event>, t: nat,
      tools: Tools)
    requires t in Answered(Exec(Boot(state, output), events, tools))
    ensures var boot := Boot(state, output);
            var th := Exec(boot, events, tools).threads[t];
            && th.result in {Succeeded, Failed}
            && (th.result == Failed <==> Excused(Seen(boot, events, t, tools), th.job, tools))
  {
    NoteFits(state, output, events, t, tools);
  }

  /** A fault is one of the request's own steps that failed since the process started. */
  ghost predicate OwnStepFailed(events: seq<Event>, t: nat) {
    exists k :: 0 <= k < |events| && events[k].Run? && events[k].tid == t && events[k].choice.fails
      && forall j :: k < j < |events| ==> !events[j].Kill?
  }

  lemma OwnStepStaysBehind(front: seq<Event>, event: Event, t: nat)
    requires OwnStepFailed(front, t) && !event.Kill?
    ensures OwnStepFailed(front + [event], t)
  {
    var events := front + [event];
    var k :| 0 <= k < |front| && front[k].Run? && front[k].tid == t && front[k].choice.fails
      && forall j :: k < j < |front| ==> !front[j].Kill?;
    assert events[k] == front[k];
  }

  lemma {:induction false} FaultIsOwnStep(start: State, events: seq<Event>, t: nat, tools: Tools)
    requires Seen(start, events, t, tools).fault
    ensures OwnStepFailed(events, t)
  {
    var n := |events| - 1;
    if Seen(start, events[..n], t, tools).fault {
      FaultIsOwnStep(start, events[..n], t, tools);
      OwnStepStaysBehind(events[..n], events[n], t);
      assert events == events[..n] + [events[n]];
    }
  }

  /**
   An update with no failing step of its own succeeds, whatever other threads do, provided the
   state file could be read and the config generated from the list in it is accepted.
   */
  lemma SucceedsWithoutCause(state: File<seq<Subscription>>, output: File<Object>, events: seq<Event>, t: nat,
      tools: Tools)
    requires t in Answered(Exec(Boot(state, output), events, tools)) && !OwnStepFailed(events, t)
    requires var n := Seen(Boot(state, output), events, t, tools);
             n.read.Some? ==> !n.read.value.Garbled? && (n.given.Some? ==>
               !Refused(n.given.value,
                 NextList(Exec(Boot(state, output), events, tools).threads[t].job, Decoded(n.read.value)), tools))
    ensures Exec(Boot(state, output), events, tools).threads[t].result == Succeeded
  {
    FailsOnlyWithCause(state, output, events, t, tools);
    if Seen(Boot(state, output), events, t, tools).fault {
      FaultIsOwnStep(Boot(state, output), events, t, tools);
    }
  }
}
