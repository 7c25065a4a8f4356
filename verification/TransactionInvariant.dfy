/** What every step of the transaction system keeps. */
module TransactionInvariant {
  import opened Wrappers
  import opened Json
  import opened Generation
  import opened Transaction

  // ---- locks ----------------------------------------------------------------

  predicate HoldsMu(pc: Pc) {
    pc !in {WantMu, HealthLock, HealthRead, HealthUnlock, Done}
  }

  predicate HoldsHealth(pc: Pc) {
    pc in {AttemptUnlock, RecordError, RecordSuccess, RecordNodes, RecordSkipped, RecordUnlock, HealthRead,
      HealthUnlock}
  }

  predicate JobOk(th: Thread) {
    && (th.pc == WantMu ==> th.result == Unanswered)
    && match th.job
       case Update(_) => th.pc !in {ListRead, HealthLock, HealthRead, HealthUnlock}
       case ListNames => th.pc in {WantMu, ListRead, UnlockMu, Done}
       case ReadHealth => th.pc in {HealthLock, HealthRead, HealthUnlock, Done}
  }

  predicate LocksOk(s: State) {
    && (s.mu.Some? ==> s.mu.value in s.threads)
    && (s.healthMu.Some? ==> s.healthMu.value in s.threads)
    && (forall t :: t in s.threads ==>
          && JobOk(s.threads[t])
          && (HoldsMu(s.threads[t].pc) <==> s.mu == Some(t))
          && (HoldsHealth(s.threads[t].pc) <==> s.healthMu == Some(t)))
  }

  /** The thread inside the transaction lock, if it is an update. */
  function Holder(s: State): Option<Thread> {
    if s.mu.Some? && s.mu.value in s.threads && s.threads[s.mu.value].job.Update?
    then Some(s.threads[s.mu.value]) else None
  }

  const HEALTH_LOCKS := {AttemptLock, RecordLock, HealthLock}
  const HEALTH_UNLOCKS := {AttemptUnlock, RecordUnlock, HealthUnlock}

  /** How a step moves its own thread, as far as the locks are concerned. */
  predicate Moves(s: State, tid: nat, s': State)
    requires tid in s.threads
  {
    var pc := s.threads[tid].pc;
    && tid in s'.threads && s'.threads == s.threads[tid := s'.threads[tid]]
    && s'.threads[tid].job == s.threads[tid].job && JobOk(s'.threads[tid])
    && var pc' := s'.threads[tid].pc;
       && s'.mu == (if pc == WantMu then Some(tid) else if pc == UnlockMu then None else s.mu)
       && s'.healthMu == (if pc in HEALTH_LOCKS then Some(tid) else if pc in HEALTH_UNLOCKS then None else s.healthMu)
       && (HoldsMu(pc') <==> pc == WantMu || (HoldsMu(pc) && pc != UnlockMu))
       && (HoldsHealth(pc') <==> pc in HEALTH_LOCKS || (HoldsHealth(pc) && pc !in HEALTH_UNLOCKS))
  }

  lemma PrepareMoves(s: State, tid: nat, c: Choice, tools: Tools)
    requires Enabled(s, tid) && JobOk(s.threads[tid]) && s.threads[tid].pc in {ReadState, Build}
    ensures Moves(s, tid, Next(s, tid, c, tools))
  {
  }

  lemma CandidateMoves(s: State, tid: nat, c: Choice, tools: Tools)
    requires Enabled(s, tid) && JobOk(s.threads[tid]) && s.threads[tid].pc in {CreateCandidate, WriteCandidate}
    ensures Moves(s, tid, Next(s, tid, c, tools))
  {
  }

  lemma PublishMoves(s: State, tid: nat, c: Choice, tools: Tools)
    requires Enabled(s, tid) && JobOk(s.threads[tid]) && s.threads[tid].pc in {Validate, RenameOutput}
    ensures Moves(s, tid, Next(s, tid, c, tools))
  {
  }

  lemma PersistMoves(s: State, tid: nat, c: Choice, tools: Tools)
    requires Enabled(s, tid) && JobOk(s.threads[tid]) && s.threads[tid].pc in {CreateState, WriteState, RenameState}
    ensures Moves(s, tid, Next(s, tid, c, tools))
  {
  }

  lemma RollbackMoves(s: State, tid: nat, c: Choice, tools: Tools)
    requires Enabled(s, tid) && JobOk(s.threads[tid])
              && s.threads[tid].pc in {CreateRollback, WriteRollback, RenameRollback}
    ensures Moves(s, tid, Next(s, tid, c, tools))
  {
  }

  lemma RecordMoves(s: State, tid: nat, c: Choice, tools: Tools)
    requires Enabled(s, tid) && JobOk(s.threads[tid])
              && s.threads[tid].pc in {RecordError, RecordSuccess, RecordNodes, RecordSkipped}
    ensures Moves(s, tid, Next(s, tid, c, tools))
  {
  }

  lemma MuMoves(s: State, tid: nat, c: Choice, tools: Tools)
    requires Enabled(s, tid) && JobOk(s.threads[tid]) && s.threads[tid].pc in {WantMu, UnlockMu, ListRead}
    ensures Moves(s, tid, Next(s, tid, c, tools))
  {
  }

  lemma HealthMoves(s: State, tid: nat, c: Choice, tools: Tools)
    requires Enabled(s, tid) && JobOk(s.threads[tid])
    requires s.threads[tid].pc in {AttemptLock, AttemptUnlock, RecordLock, RecordUnlock, HealthLock, HealthRead,
              HealthUnlock}
    ensures Moves(s, tid, Next(s, tid, c, tools))
  {
  }

  lemma StepMoves(s: State, tid: nat, c: Choice, tools: Tools)
    requires Enabled(s, tid) && JobOk(s.threads[tid])
    ensures Moves(s, tid, Next(s, tid, c, tools))
  {
    var pc := s.threads[tid].pc;
    if pc in {ReadState, Build} {
      PrepareMoves(s, tid, c, tools);
    } else if pc in {CreateCandidate, WriteCandidate} {
      CandidateMoves(s, tid, c, tools);
    } else if pc in {Validate, RenameOutput} {
      PublishMoves(s, tid, c, tools);
    } else if pc in {CreateState, WriteState, RenameState} {
      PersistMoves(s, tid, c, tools);
    } else if pc in {CreateRollback, WriteRollback, RenameRollback} {
      RollbackMoves(s, tid, c, tools);
    } else if pc in {RecordError, RecordSuccess, RecordNodes, RecordSkipped} {
      RecordMoves(s, tid, c, tools);
    } else if pc in {WantMu, UnlockMu, ListRead} {
      MuMoves(s, tid, c, tools);
    } else {
      HealthMoves(s, tid, c, tools);
    }
  }

  lemma MovesKeepLocks(s: State, tid: nat, s': State)
    requires LocksOk(s) && Enabled(s, tid) && Moves(s, tid, s')
    ensures LocksOk(s')
  {
  }

  lemma StepKeepsLocks(s: State, tid: nat, c: Choice, tools: Tools)
    requires LocksOk(s) && Enabled(s, tid)
    ensures Moves(s, tid, Next(s, tid, c, tools)) && LocksOk(Next(s, tid, c, tools))
  {
    StepMoves(s, tid, c, tools);
    MovesKeepLocks(s, tid, Next(s, tid, c, tools));
  }

  /** Some thread can always move: the two locks are only ever nested one way round. */
  lemma NoDeadlock(s: State, tid: nat)
    requires LocksOk(s) && tid in s.threads && s.threads[tid].pc != Done
    ensures exists t :: Enabled(s, t)
  {
    if s.healthMu.Some? {
      assert Enabled(s, s.healthMu.value);
    } else if s.mu.Some? {
      assert Enabled(s, s.mu.value);
    } else {
      assert Enabled(s, tid);
    }
  }

  // ---- the invariant ----------------------------------------------------------

  predicate InProgress(pc: Pc) {
    HoldsMu(pc) && pc !in {RecordLock, RecordError, RecordSuccess, RecordNodes, RecordSkipped, RecordUnlock, UnlockMu,
      ListRead}
  }

  predicate HasRead(pc: Pc) {
    InProgress(pc) && pc !in {AttemptLock, AttemptUnlock, ReadState}
  }

  predicate HasBuilt(pc: Pc) {
    HasRead(pc) && pc != Build
  }

  predicate HasCandidate(pc: Pc) {
    HasBuilt(pc) && pc !in {CreateCandidate, WriteCandidate}
  }

  /** The state file holds the new list, and the output has not followed yet. */
  predicate Window(th: Thread) {
    Persists(th) && th.pc in {RenameOutput, CreateRollback, WriteRollback, RenameRollback}
  }

  predicate Settled(turns: seq<Turn>, n: nat) {
    forall i :: 0 <= i < n <= |turns| ==> !turns[i].outcome.Pending?
  }

  /** A turn is decided as its update is answered. */
  predicate Agrees(outcome: Outcome, result: Answer) {
    match outcome
    case Pending => result == Unanswered
    case Committed(_, _) => result == Succeeded
    case Rejected => result == Failed
  }

  predicate TurnsOk(history: seq<Turn>, holder: Option<Thread>) {
    match holder
    case None => Settled(history, |history|)
    case Some(th) =>
      && th.job.Update?
      && history != [] && Settled(history, |history| - 1)
      && var last := history[|history| - 1];
         && last.add == th.job.add
         && Agrees(last.outcome, th.result)
         && (last.outcome.Pending? <==> InProgress(th.pc))
         && (last.outcome.Committed? ==> last.outcome == Committed(th.source, th.built))
         && (th.pc in {RecordSuccess, RecordNodes, RecordSkipped} ==> last.outcome.Committed?)
  }

  /** What the update in progress knows about the files at each of its steps. */
  predicate WorkOk(th: Thread, files: Files, versions: seq<seq<Subscription>>, tools: Tools) {
    && (HasRead(th.pc) ==>
          && th.next == NextList(th.job, th.list)
          && (if Window(th) then files.state == Whole(th.next) && |versions| >= 2 && versions[|versions| - 2] == th.list
              else Decoded(files.state) == th.list))
    && (HasBuilt(th.pc) ==> tools.generate(th.source.base, th.next, th.source.world) == Some(th.built))
    && (HasCandidate(th.pc) ==> files.candidate == Whole(th.built.config))
    && (HasCandidate(th.pc) && th.pc != Validate ==> tools.validate(th.built.config))
    && (HasCandidate(th.pc) && th.pc !in {Validate, RenameOutput} ==> Persists(th))
    && (th.pc == RenameState ==> files.stateTemp == Whole(th.next))
    && (th.pc == RenameRollback ==> files.stateTemp == Whole(th.list))
  }

  predicate PersistedOk(files: Files, log: Log) {
    log.versions != [] && log.versions[|log.versions| - 1] == Decoded(files.state)
  }

  predicate GeneratedFrom(output: File<Object>, list: seq<Subscription>, source: Source, tools: Tools) {
    match tools.generate(source.base, list, source.world)
    case Some(built) => output == Whole(built.config) && tools.validate(built.config)
    case None => false
  }

  predicate InWindow(holder: Option<Thread>) {
    holder.Some? && Window(holder.value)
  }

  /** The output is what was there at first, or a validated generation of some list persisted no later. */
  predicate OriginOk(output: File<Object>, log: Log, window: bool, tools: Tools) {
    match log.origin
    case None => output == log.firstOutput
    case Some(o) =>
      && o.version + (if window then 1 else 0) < |log.versions|
      && GeneratedFrom(output, log.versions[o.version], o.source, tools)
  }

  predicate SerialOk(files: Files, log: Log, holder: Option<Thread>, tools: Tools) {
    log.clean ==>
      && files.output == SerialOutput(log.bootOutput, log.bootList, log.history, tools)
      && SerialList(log.bootList, log.history) == if InWindow(holder) then holder.value.list else Decoded(files.state)
  }

  predicate HealthOk(health: Health, history: seq<Turn>, holder: Option<Thread>) {
    if holder.None? || holder.value.pc in {RecordUnlock, UnlockMu} then health == HealthAfter(history)
    else
      && history != []
      && var before := HealthAfter(history[..|history| - 1]);
         match holder.value.pc
         case RecordSuccess => health == before.(failing := false)
         case RecordNodes => health == before.(failing := false, succeeded := true)
         case RecordSkipped => health == before.(failing := false, succeeded := true, nodes := holder.value.built.nodes)
         case _ => health == before
  }

  /** Turns that no later step changes. */
  function Final(history: seq<Turn>, holder: Option<Thread>): nat {
    if holder.Some? && InProgress(holder.value.pc) && history != [] then |history| - 1 else |history|
  }

  predicate ListsOk(log: Log, n: nat) {
    log.clean ==> forall i :: 0 <= i < |log.lists| ==>
      && log.lists[i].turns <= n <= |log.history|
      && log.lists[i].list == SerialList(log.bootList, log.history[..log.lists[i].turns])
  }

  predicate AnswersOk(log: Log, n: nat) {
    forall i :: 0 <= i < |log.answers| ==>
      && log.answers[i].turns <= n <= |log.history|
      && log.answers[i].health == HealthAfter(log.history[..log.answers[i].turns])
  }

  predicate FilesOk(files: Files, health: Health, log: Log, holder: Option<Thread>, tools: Tools) {
    && TurnsOk(log.history, holder)
    && PersistedOk(files, log)
    && OriginOk(files.output, log, InWindow(holder), tools)
    && SerialOk(files, log, holder, tools)
    && HealthOk(health, log.history, holder)
  }

  predicate LogsOk(log: Log, n: nat) {
    ListsOk(log, n) && AnswersOk(log, n)
  }

  predicate Core(s: State, holder: Option<Thread>, tools: Tools) {
    FilesOk(s.files, s.health, s.log, holder, tools) && LogsOk(s.log, Final(s.log.history, holder))
  }

  predicate Inv(s: State, tools: Tools) {
    && LocksOk(s)
    && (Holder(s).Some? ==> WorkOk(Holder(s).value, s.files, s.log.versions, tools))
    && Core(s, Holder(s), tools)
  }

  lemma BootHolds(state: File<seq<Subscription>>, output: File<Object>, tools: Tools)
    ensures Inv(Boot(state, output), tools)
  {
  }

  lemma RestartKeeps(s: State, tools: Tools)
    requires Inv(s, tools)
    ensures Inv(Restart(s), tools)
  {
  }

  // ---- deciding a turn --------------------------------------------------------

  lemma DecideKeepsPrefix(log: Log, outcome: Outcome, k: nat)
    requires log.history != [] && k < |log.history|
    ensures Decide(log, outcome).history[..k] == log.history[..k]
  {
  }

  lemma DecideKeepsFront(log: Log, outcome: Outcome)
    requires log.history != []
    ensures var after := Decide(log, outcome).history;
            |after| == |log.history| && after[..|after| - 1] == log.history[..|log.history| - 1]
  {
  }

  /** What the last turn adds to the serial list and the serial output. */
  lemma LastTurnUnfolds(bootOutput: File<Object>, bootList: seq<Subscription>, turns: seq<Turn>, tools: Tools)
    requires turns != []
    ensures var before, last := turns[..|turns| - 1], turns[|turns| - 1];
            var serial := SerialList(bootList, before);
            if last.outcome.Committed? then
              var source, next := last.outcome.source, NextList(Update(last.add), serial);
              && SerialList(bootList, turns) == next
              && forall built :: tools.generate(source.base, next, source.world) == Some(built) ==>
                   SerialOutput(bootOutput, bootList, turns, tools) == Whole(built.config)
            else
              && SerialList(bootList, turns) == serial
              && SerialOutput(bootOutput, bootList, turns, tools) == SerialOutput(bootOutput, bootList, before, tools)
  {
  }

  lemma DecideKeepsLogs(log: Log, outcome: Outcome)
    requires log.history != [] && LogsOk(log, |log.history| - 1)
    ensures LogsOk(Decide(log, outcome), |log.history|)
  {
    forall k: nat | k < |log.history|
      ensures Decide(log, outcome).history[..k] == log.history[..k]
    {
      DecideKeepsPrefix(log, outcome, k);
    }
  }

  lemma FilesRejected(files: Files, health: Health, log: Log, th: Thread, tools: Tools)
    requires FilesOk(files, health, log, Some(th), tools) && InProgress(th.pc) && !Window(th)
    ensures FilesOk(files, health, Decide(log, Rejected), Some(th.(pc := RecordLock, result := Failed)), tools)
  {
    DecideKeepsFront(log, Rejected);
    LastTurnUnfolds(log.bootOutput, log.bootList, log.history, tools);
    LastTurnUnfolds(log.bootOutput, log.bootList, Decide(log, Rejected).history, tools);
  }

  lemma CoreRejected(s: State, th: Thread, tools: Tools)
    requires Core(s, Some(th), tools) && InProgress(th.pc) && !Window(th)
    ensures Core(s.(log := Decide(s.log, Rejected)), Some(th.(pc := RecordLock, result := Failed)), tools)
  {
    FilesRejected(s.files, s.health, s.log, th, tools);
    DecideKeepsLogs(s.log, Rejected);
  }

  // ---- steps outside the transaction lock, and taking it ------------------------

  /** Locks, threads and temporary files aside, nothing has moved. */
  predicate Quiet(s: State, s': State) {
    s'.files.state == s.files.state && s'.files.output == s.files.output && s'.health == s.health && s'.log == s.log
  }

  /** Where one update stands, as far as the rest of the invariant can tell. */
  predicate SameStage(th: Thread, th': Thread) {
    && th'.job == th.job && th'.result == th.result && InProgress(th.pc) && InProgress(th'.pc)
    && Window(th) == Window(th') && (Window(th) ==> th'.list == th.list)
  }

  lemma QuietKeepsCore(s: State, s': State, th: Thread, th': Thread, tools: Tools)
    requires Core(s, Some(th), tools) && Quiet(s, s') && SameStage(th, th')
    ensures Core(s', Some(th'), tools)
  {
  }

  lemma HolderMoves(s: State, tid: nat, s': State)
    requires LocksOk(s) && Enabled(s, tid) && Moves(s, tid, s')
    requires s.threads[tid].job.Update?
    ensures s.threads[tid].pc == WantMu ==> Holder(s) == None && Holder(s') == Some(s'.threads[tid])
    ensures s.threads[tid].pc == UnlockMu ==> Holder(s) == Some(s.threads[tid]) && Holder(s') == None
    ensures s.threads[tid].pc !in {WantMu, UnlockMu} ==>
              Holder(s) == Some(s.threads[tid]) && Holder(s') == Some(s'.threads[tid])
  {
  }

  lemma HolderStays(s: State, tid: nat, s': State)
    requires LocksOk(s) && Enabled(s, tid) && Moves(s, tid, s')
    requires !s.threads[tid].job.Update?
    ensures Holder(s') == Holder(s)
    ensures s.threads[tid].job.ListNames? ==> Holder(s) == None
  {
  }

  lemma UntouchedKeeps(s: State, s': State, tools: Tools)
    requires Inv(s, tools) && LocksOk(s') && Holder(s') == Holder(s)
    requires s'.files == s.files && s'.health == s.health && s'.log == s.log.(before := s'.log.before)
    ensures Inv(s', tools)
  {
  }

  lemma ReadersAreQuiet(s: State, tid: nat, c: Choice, tools: Tools)
    requires Enabled(s, tid) && JobOk(s.threads[tid]) && !s.threads[tid].job.Update?
    requires s.threads[tid].pc !in {ListRead, HealthRead}
    ensures Quiet(s, Next(s, tid, c, tools)) && Next(s, tid, c, tools).files == s.files
  {
  }

  lemma ReadersKeep(s: State, tid: nat, c: Choice, tools: Tools)
    requires Inv(s, tools) && Enabled(s, tid) && !s.threads[tid].job.Update?
    requires s.threads[tid].pc !in {ListRead, HealthRead}
    ensures Inv(Next(s, tid, c, tools), tools)
  {
    var s' := Next(s, tid, c, tools);
    StepKeepsLocks(s, tid, c, tools);
    HolderStays(s, tid, s');
    ReadersAreQuiet(s, tid, c, tools);
    UntouchedKeeps(s, s', tools);
  }

  lemma NewListFits(log: Log, answer: ListAnswer, n: nat)
    requires LogsOk(log, n) && answer.turns <= n <= |log.history|
    requires log.clean ==> answer.list == SerialList(log.bootList, log.history[..answer.turns])
    ensures LogsOk(log.(lists := log.lists + [answer]), n)
  {
  }

  lemma ListReadIs(s: State, tid: nat, c: Choice, tools: Tools)
    requires Enabled(s, tid) && s.threads[tid].pc == ListRead
    ensures var s', answer := Next(s, tid, c, tools), ListAnswer(tid, Decoded(s.files.state), |s.log.history|);
            && s'.files == s.files && s'.health == s.health
            && (s'.log == s.log || s'.log == s.log.(lists := s.log.lists + [answer]))
  {
  }

  lemma ListReadKeeps(s: State, tid: nat, c: Choice, tools: Tools)
    requires Inv(s, tools) && Enabled(s, tid) && s.threads[tid].pc == ListRead
    ensures Inv(Next(s, tid, c, tools), tools)
  {
    StepKeepsLocks(s, tid, c, tools);
    HolderStays(s, tid, Next(s, tid, c, tools));
    ListReadIs(s, tid, c, tools);
    assert s.log.history[..|s.log.history|] == s.log.history;
    NewListFits(s.log, ListAnswer(tid, Decoded(s.files.state), |s.log.history|), |s.log.history|);
  }

  /** Health is read outside a health record, so it is that of the turns recorded. */
  lemma HealthIsRecorded(s: State, tid: nat)
    requires LocksOk(s) && tid in s.threads && s.threads[tid].pc == HealthRead
    requires TurnsOk(s.log.history, Holder(s)) && HealthOk(s.health, s.log.history, Holder(s))
    ensures Recorded(s) <= Final(s.log.history, Holder(s))
    ensures s.health == HealthAfter(s.log.history[..Recorded(s)])
  {
    assert s.log.history[..|s.log.history|] == s.log.history;
  }

  lemma NewAnswerFits(log: Log, answer: HealthAnswer, n: nat)
    requires LogsOk(log, n) && answer.turns <= n <= |log.history|
    requires answer.health == HealthAfter(log.history[..answer.turns])
    ensures LogsOk(log.(answers := log.answers + [answer]), n)
  {
  }

  lemma HealthReadKeeps(s: State, tid: nat, c: Choice, tools: Tools)
    requires Inv(s, tools) && Enabled(s, tid) && s.threads[tid].pc == HealthRead
    ensures Inv(Next(s, tid, c, tools), tools)
  {
    StepKeepsLocks(s, tid, c, tools);
    HolderStays(s, tid, Next(s, tid, c, tools));
    HealthIsRecorded(s, tid);
    NewAnswerFits(s.log, HealthAnswer(tid, s.health, Recorded(s)), Final(s.log.history, Holder(s)));
  }

  lemma NewTurnKeepsLogs(log: Log, tid: nat, add: Option<Subscription>)
    requires LogsOk(log, |log.history|)
    ensures LogsOk(Entered(log, tid, add), |log.history|)
  {
    assert forall k: nat :: k <= |log.history| ==> Entered(log, tid, add).history[..k] == log.history[..k];
  }

  lemma NewTurnKeepsFiles(files: Files, health: Health, log: Log, tid: nat, th: Thread, tools: Tools)
    requires FilesOk(files, health, log, None, tools)
    requires th.job.Update? && th.pc == AttemptLock && th.result == Unanswered
    ensures FilesOk(files, health, Entered(log, tid, th.job.add), Some(th), tools)
  {
    var after := Entered(log, tid, th.job.add).history;
    assert after[..|after| - 1] == log.history;
    LastTurnUnfolds(log.bootOutput, log.bootList, after, tools);
  }

  lemma AcquireKeeps(s: State, tid: nat, c: Choice, tools: Tools)
    requires Inv(s, tools) && Enabled(s, tid) && s.threads[tid].pc == WantMu && s.threads[tid].job.Update?
    ensures Inv(Next(s, tid, c, tools), tools)
  {
    var s' := Next(s, tid, c, tools);
    StepKeepsLocks(s, tid, c, tools);
    HolderMoves(s, tid, s');
    NewTurnKeepsFiles(s.files, s.health, s.log, tid, s'.threads[tid], tools);
    NewTurnKeepsLogs(s.log, tid, s.threads[tid].job.add);
  }

  // ---- steps of an update -------------------------------------------------------

  lemma ReleaseKeepsCore(s: State, s': State, th: Thread, tools: Tools)
    requires Core(s, Some(th), tools) && Quiet(s, s') && th.pc == UnlockMu
    ensures Core(s', None, tools)
  {
  }

  lemma UnlockKeeps(s: State, tid: nat, c: Choice, tools: Tools)
    requires Inv(s, tools) && Enabled(s, tid) && s.threads[tid].pc == UnlockMu && s.threads[tid].job.Update?
    ensures Inv(Next(s, tid, c, tools), tools)
  {
    var s' := Next(s, tid, c, tools);
    StepKeepsLocks(s, tid, c, tools);
    HolderMoves(s, tid, s');
    ReleaseKeepsCore(s, s', s.threads[tid], tools);
  }

  lemma AttemptKeeps(s: State, tid: nat, c: Choice, tools: Tools)
    requires Inv(s, tools) && Enabled(s, tid) && s.threads[tid].pc in {AttemptLock, AttemptUnlock}
    ensures Inv(Next(s, tid, c, tools), tools)
  {
    var s' := Next(s, tid, c, tools);
    StepKeepsLocks(s, tid, c, tools);
    HolderMoves(s, tid, s');
    QuietKeepsCore(s, s', s.threads[tid], s'.threads[tid], tools);
  }

  /** What the invariant says of the update that is about to take a step. */
  predicate Inside(s: State, tid: nat, tools: Tools) {
    && tid in s.threads && s.threads[tid].job.Update?
    && WorkOk(s.threads[tid], s.files, s.log.versions, tools) && Core(s, Some(s.threads[tid]), tools)
  }

  lemma Outset(s: State, tid: nat, tools: Tools)
    requires Inv(s, tools) && tid in s.threads && s.threads[tid].job.Update? && HoldsMu(s.threads[tid].pc)
    ensures LocksOk(s) && Inside(s, tid, tools)
  {
  }

  /** And what has to be shown after it. */
  lemma Arrival(s: State, tid: nat, c: Choice, tools: Tools)
    requires LocksOk(s) && Enabled(s, tid) && s.threads[tid].job.Update?
    requires s.threads[tid].pc !in {WantMu, UnlockMu}
    requires var s' := Next(s, tid, c, tools);
             && tid in s'.threads
             && WorkOk(s'.threads[tid], s'.files, s'.log.versions, tools) && Core(s', Some(s'.threads[tid]), tools)
    ensures Inv(Next(s, tid, c, tools), tools)
  {
    StepKeepsLocks(s, tid, c, tools);
    HolderMoves(s, tid, Next(s, tid, c, tools));
  }

  /** An error return is fine wherever the state file does not run ahead. */
  lemma RejectedCore(mid: State, tid: nat, tools: Tools)
    requires tid in mid.threads && mid.threads[tid].job.Update?
    requires Core(mid, Some(mid.threads[tid].(pc := ReadState)), tools)
    ensures var s' := Reject(mid, tid);
            tid in s'.threads && Core(s', Some(s'.threads[tid]), tools) && s'.threads[tid].pc == RecordLock
  {
    CoreRejected(mid, mid.threads[tid].(pc := ReadState), tools);
  }

  lemma RejectKeeps(s: State, tid: nat, mid: State, c: Choice, tools: Tools)
    requires LocksOk(s) && Enabled(s, tid) && s.threads[tid].job.Update? && InProgress(s.threads[tid].pc)
    requires mid.threads == s.threads
    requires Core(mid, Some(s.threads[tid].(pc := ReadState)), tools)
    requires Next(s, tid, c, tools) == Reject(mid, tid)
    ensures Inv(Next(s, tid, c, tools), tools)
  {
    RejectedCore(mid, tid, tools);
    Arrival(s, tid, c, tools);
  }

  /** A step that leaves everything but temporary files and the thread's own notes alone. */
  predicate Advances(s: State, tid: nat, s': State, tools: Tools)
    requires tid in s.threads
  {
    && Quiet(s, s') && tid in s'.threads && SameStage(s.threads[tid], s'.threads[tid])
    && WorkOk(s'.threads[tid], s'.files, s'.log.versions, tools)
  }

  lemma AdvanceKeeps(s: State, tid: nat, c: Choice, tools: Tools)
    requires LocksOk(s) && Enabled(s, tid) && Inside(s, tid, tools)
    requires s.threads[tid].job.Update?
    requires Advances(s, tid, Next(s, tid, c, tools), tools)
    ensures Inv(Next(s, tid, c, tools), tools)
  {
    var s' := Next(s, tid, c, tools);
    QuietKeepsCore(s, s', s.threads[tid], s'.threads[tid], tools);
    Arrival(s, tid, c, tools);
  }

  lemma FailKeeps(s: State, tid: nat, c: Choice, tools: Tools)
    requires LocksOk(s) && Enabled(s, tid) && Inside(s, tid, tools)
    requires HasMuBeforePersist(s.threads[tid].pc)
    requires Next(s, tid, c, tools) == Reject(s, tid)
    ensures Inv(Next(s, tid, c, tools), tools)
  {
    var th := s.threads[tid];
    QuietKeepsCore(s, s, th, th.(pc := ReadState), tools);
    RejectKeeps(s, tid, s, c, tools);
  }

  predicate HasMuBeforePersist(pc: Pc) {
    pc in {ReadState, Build, CreateCandidate, WriteCandidate, Validate}
  }

  predicate FailsOrAdvances(s: State, tid: nat, s': State, tools: Tools)
    requires tid in s.threads
  {
    s' == Reject(s, tid) || Advances(s, tid, s', tools)
  }

  lemma ReadAdvances(s: State, tid: nat, c: Choice, tools: Tools)
    requires Enabled(s, tid) && s.threads[tid].pc in {ReadState, Build}
    requires WorkOk(s.threads[tid], s.files, s.log.versions, tools)
    ensures FailsOrAdvances(s, tid, Next(s, tid, c, tools), tools)
  {
  }

  lemma CandidateAdvances(s: State, tid: nat, c: Choice, tools: Tools)
    requires Enabled(s, tid) && s.threads[tid].pc in {CreateCandidate, WriteCandidate}
    requires WorkOk(s.threads[tid], s.files, s.log.versions, tools)
    ensures FailsOrAdvances(s, tid, Next(s, tid, c, tools), tools)
  {
  }

  lemma ValidateAdvances(s: State, tid: nat, c: Choice, tools: Tools)
    requires Enabled(s, tid) && s.threads[tid].pc == Validate
    requires WorkOk(s.threads[tid], s.files, s.log.versions, tools)
    ensures FailsOrAdvances(s, tid, Next(s, tid, c, tools), tools)
  {
  }

  lemma PrepareKeeps(s: State, tid: nat, c: Choice, tools: Tools)
    requires LocksOk(s) && Enabled(s, tid) && Inside(s, tid, tools)
    requires HasMuBeforePersist(s.threads[tid].pc)
    ensures Inv(Next(s, tid, c, tools), tools)
  {
    var pc := s.threads[tid].pc;
    if pc in {ReadState, Build} {
      ReadAdvances(s, tid, c, tools);
    } else if pc == Validate {
      ValidateAdvances(s, tid, c, tools);
    } else {
      CandidateAdvances(s, tid, c, tools);
    }
    if Next(s, tid, c, tools) == Reject(s, tid) {
      FailKeeps(s, tid, c, tools);
    } else {
      AdvanceKeeps(s, tid, c, tools);
    }
  }

  lemma PersistFailKeeps(s: State, tid: nat, c: Choice, tools: Tools)
    requires LocksOk(s) && Enabled(s, tid) && Inside(s, tid, tools)
    requires s.threads[tid].pc in {CreateState, WriteState, RenameState} && c.fails
    ensures Inv(Next(s, tid, c, tools), tools)
  {
    var th := s.threads[tid];
    var mid := s.(files := s.files.(stateTemp := Absent));
    QuietKeepsCore(s, mid, th, th.(pc := ReadState), tools);
    RejectKeeps(s, tid, mid, c, tools);
  }

  lemma CreateAdvances(s: State, tid: nat, c: Choice, tools: Tools)
    requires Enabled(s, tid) && !c.fails && s.threads[tid].pc in {CreateState, CreateRollback}
    requires WorkOk(s.threads[tid], s.files, s.log.versions, tools)
    ensures Advances(s, tid, Next(s, tid, c, tools), tools)
  {
  }

  lemma WriteAdvances(s: State, tid: nat, c: Choice, tools: Tools)
    requires Enabled(s, tid) && !c.fails && s.threads[tid].pc in {WriteState, WriteRollback}
    requires WorkOk(s.threads[tid], s.files, s.log.versions, tools)
    ensures Advances(s, tid, Next(s, tid, c, tools), tools)
  {
  }

  lemma TempKeeps(s: State, tid: nat, c: Choice, tools: Tools)
    requires LocksOk(s) && Enabled(s, tid) && Inside(s, tid, tools)
    requires !c.fails
    requires s.threads[tid].pc in {CreateState, WriteState, CreateRollback, WriteRollback}
    ensures Inv(Next(s, tid, c, tools), tools)
  {
    if s.threads[tid].pc in {CreateState, CreateRollback} {
      CreateAdvances(s, tid, c, tools);
    } else {
      WriteAdvances(s, tid, c, tools);
    }
    AdvanceKeeps(s, tid, c, tools);
  }

  lemma CommitStateKeepsWork(s: State, tid: nat, c: Choice, tools: Tools)
    requires Enabled(s, tid) && s.threads[tid].pc == RenameState && !c.fails
    requires WorkOk(s.threads[tid], s.files, s.log.versions, tools) && PersistedOk(s.files, s.log)
    ensures var s' := Next(s, tid, c, tools);
            tid in s'.threads && WorkOk(s'.threads[tid], s'.files, s'.log.versions, tools)
  {
    var s' := Next(s, tid, c, tools);
    assert s'.log.versions == s.log.versions + [s.threads[tid].next];
    assert s'.threads[tid] == s.threads[tid].(pc := RenameOutput);
  }

  lemma CommitStateKeepsCore(s: State, s': State, th: Thread, tools: Tools)
    requires Core(s, Some(th), tools) && th.pc == RenameState && Persists(th) && Decoded(s.files.state) == th.list
    requires s'.files.output == s.files.output && s'.files.state == Whole(th.next)
    requires s'.health == s.health && s'.log == s.log.(versions := s.log.versions + [th.next])
    ensures Core(s', Some(th.(pc := RenameOutput)), tools)
  {
  }

  lemma CommitStateKeeps(s: State, tid: nat, c: Choice, tools: Tools)
    requires LocksOk(s) && Enabled(s, tid) && Inside(s, tid, tools)
    requires s.threads[tid].pc == RenameState && !c.fails
    ensures Inv(Next(s, tid, c, tools), tools)
  {
    CommitStateKeepsWork(s, tid, c, tools);
    CommitStateKeepsCore(s, Next(s, tid, c, tools), s.threads[tid], tools);
    Arrival(s, tid, c, tools);
  }

  /** The log once this update has published. */
  function Published(log: Log, th: Thread): Log
    requires log.versions != []
  {
    Decide(log.(origin := Some(Origin(|log.versions| - 1, th.source))), Committed(th.source, th.built))
  }

  lemma PublishIs(s: State, tid: nat, c: Choice, tools: Tools)
    requires Enabled(s, tid) && s.threads[tid].pc == RenameOutput && !c.fails && s.log.versions != []
    ensures var s', th := Next(s, tid, c, tools), s.threads[tid];
            && s'.files == s.files.(output := s.files.candidate, candidate := Absent)
            && s'.health == s.health && s'.log == Published(s.log, th)
            && tid in s'.threads && s'.threads[tid] == th.(pc := RecordLock, result := Succeeded)
  {
  }

  lemma PublishKeepsSerial(files: Files, log: Log, th: Thread, th': Thread, tools: Tools)
    requires TurnsOk(log.history, Some(th)) && SerialOk(files, log, Some(th), tools) && log.versions != []
    requires WorkOk(th, files, log.versions, tools) && th.pc == RenameOutput && th'.pc == RecordLock
    ensures SerialOk(files.(output := files.candidate, candidate := Absent), Published(log, th), Some(th'), tools)
  {
    var after := Published(log, th).history;
    DecideKeepsFront(log.(origin := Published(log, th).origin), Committed(th.source, th.built));
    LastTurnUnfolds(log.bootOutput, log.bootList, log.history, tools);
    LastTurnUnfolds(log.bootOutput, log.bootList, after, tools);
    assert th.job == Update(th.job.add);
  }

  lemma PublishKeepsOrigin(files: Files, log: Log, th: Thread, tools: Tools)
    requires PersistedOk(files, log) && WorkOk(th, files, log.versions, tools) && th.pc == RenameOutput
    ensures var files', log' := files.(output := files.candidate, candidate := Absent), Published(log, th);
            PersistedOk(files', log') && OriginOk(files'.output, log', false, tools)
  {
    assert log.versions[|log.versions| - 1] == th.next;
  }

  lemma PublishKeepsTurns(health: Health, log: Log, th: Thread)
    requires TurnsOk(log.history, Some(th)) && HealthOk(health, log.history, Some(th))
    requires log.versions != [] && th.pc == RenameOutput
    ensures TurnAndHealthOk(health, Published(log, th).history, th.(pc := RecordLock, result := Succeeded))
  {
    DecideKeepsFront(log.(origin := Published(log, th).origin), Committed(th.source, th.built));
  }

  lemma PublishKeepsFiles(files: Files, health: Health, log: Log, th: Thread, tools: Tools)
    requires FilesOk(files, health, log, Some(th), tools)
    requires WorkOk(th, files, log.versions, tools) && th.pc == RenameOutput
    ensures FilesOk(files.(output := files.candidate, candidate := Absent), health, Published(log, th),
                    Some(th.(pc := RecordLock, result := Succeeded)), tools)
  {
    var th' := th.(pc := RecordLock, result := Succeeded);
    PublishKeepsSerial(files, log, th, th', tools);
    PublishKeepsOrigin(files, log, th, tools);
    PublishKeepsTurns(health, log, th);
  }

  lemma PublishKeeps(s: State, tid: nat, c: Choice, tools: Tools)
    requires LocksOk(s) && Enabled(s, tid) && Inside(s, tid, tools)
    requires s.threads[tid].pc == RenameOutput && !c.fails
    ensures Inv(Next(s, tid, c, tools), tools)
  {
    var th := s.threads[tid];
    PublishIs(s, tid, c, tools);
    PublishKeepsFiles(s.files, s.health, s.log, th, tools);
    DecideKeepsLogs(s.log.(origin := Published(s.log, th).origin), Committed(th.source, th.built));
    Arrival(s, tid, c, tools);
  }

  lemma PublishFailAdvances(s: State, tid: nat, c: Choice, tools: Tools)
    requires Enabled(s, tid) && s.threads[tid].pc == RenameOutput && c.fails && Persists(s.threads[tid])
    requires WorkOk(s.threads[tid], s.files, s.log.versions, tools)
    ensures Advances(s, tid, Next(s, tid, c, tools), tools)
  {
  }

  lemma PublishFailKeeps(s: State, tid: nat, c: Choice, tools: Tools)
    requires LocksOk(s) && Enabled(s, tid) && Inside(s, tid, tools)
    requires s.threads[tid].pc == RenameOutput && c.fails
    ensures Inv(Next(s, tid, c, tools), tools)
  {
    var th := s.threads[tid];
    if Persists(th) {
      PublishFailAdvances(s, tid, c, tools);
      AdvanceKeeps(s, tid, c, tools);
    } else {
      QuietKeepsCore(s, s, th, th.(pc := ReadState), tools);
      RejectKeeps(s, tid, s, c, tools);
    }
  }

  lemma UncleanKeepsCore(s: State, mid: State, th: Thread, th': Thread, tools: Tools)
    requires Core(s, Some(th), tools) && Quiet(s, mid.(log := s.log)) && mid.log == s.log.(clean := false)
    requires InProgress(th.pc) && th' == th.(pc := ReadState)
    ensures Core(mid, Some(th'), tools)
  {
  }

  /** A rollback write that fails leaves the state file ahead of the output, and that is all. */
  function Stranded(s: State): State {
    s.(files := s.files.(stateTemp := Absent), log := s.log.(clean := false))
  }

  lemma RollbackFailIs(s: State, tid: nat, c: Choice, tools: Tools)
    requires Enabled(s, tid) && s.threads[tid].pc in {CreateRollback, WriteRollback, RenameRollback} && c.fails
    ensures Next(s, tid, c, tools) == Reject(Stranded(s), tid)
  {
  }

  lemma RollbackFailKeeps(s: State, tid: nat, c: Choice, tools: Tools)
    requires LocksOk(s) && Enabled(s, tid) && Inside(s, tid, tools)
    requires s.threads[tid].pc in {CreateRollback, WriteRollback, RenameRollback} && c.fails
    ensures Inv(Next(s, tid, c, tools), tools)
  {
    var th := s.threads[tid];
    RollbackFailIs(s, tid, c, tools);
    UncleanKeepsCore(s, Stranded(s), th, th.(pc := ReadState), tools);
    RejectKeeps(s, tid, Stranded(s), c, tools);
  }

  lemma RestoredKeepsCore(s: State, mid: State, th: Thread, th': Thread, tools: Tools)
    requires Core(s, Some(th), tools) && Window(th) && th' == th.(pc := ReadState)
    requires |s.log.versions| >= 2 && s.log.versions[|s.log.versions| - 2] == th.list
    requires mid.files.output == s.files.output && mid.files.state == Whole(th.list)
    requires mid.health == s.health && mid.log == s.log.(versions := s.log.versions[..|s.log.versions| - 1])
    ensures Core(mid, Some(th'), tools)
  {
    assert mid.log.versions[|mid.log.versions| - 1] == th.list;
  }

  lemma RollbackDoneKeeps(s: State, tid: nat, c: Choice, tools: Tools)
    requires LocksOk(s) && Enabled(s, tid) && Inside(s, tid, tools)
    requires s.threads[tid].pc == RenameRollback && !c.fails
    ensures Inv(Next(s, tid, c, tools), tools)
  {
    var th := s.threads[tid];
    var restored := s.files.(state := s.files.stateTemp, stateTemp := Absent);
    var mid := s.(files := restored, log := s.log.(versions := s.log.versions[..|s.log.versions| - 1]));
    RestoredKeepsCore(s, mid, th, th.(pc := ReadState), tools);
    RejectKeeps(s, tid, mid, c, tools);
  }

  const RECORDING := {RecordLock, RecordError, RecordSuccess, RecordNodes, RecordSkipped, RecordUnlock}

  predicate TurnAndHealthOk(health: Health, history: seq<Turn>, th: Thread) {
    TurnsOk(history, Some(th)) && HealthOk(health, history, Some(th))
  }

  lemma VerdictIsNoted(health: Health, history: seq<Turn>, th: Thread)
    requires TurnAndHealthOk(health, history, th) && th.pc == RecordError
    ensures TurnAndHealthOk(Noted(health, th), history, th.(pc := AfterNote(th)))
  {
    var before := history[..|history| - 1];
    assert health == HealthAfter(before);
    if th.result == Failed {
      assert HealthAfter(history) == HealthAfter(before).(failing := true);
    }
  }

  lemma SuccessIsNoted(health: Health, history: seq<Turn>, th: Thread)
    requires TurnAndHealthOk(health, history, th) && th.pc in {RecordSuccess, RecordNodes}
    ensures TurnAndHealthOk(Noted(health, th), history, th.(pc := AfterNote(th)))
  {
  }

  lemma SkippedIsNoted(health: Health, history: seq<Turn>, th: Thread)
    requires TurnAndHealthOk(health, history, th) && th.pc == RecordSkipped
    ensures TurnAndHealthOk(Noted(health, th), history, th.(pc := AfterNote(th)))
  {
    assert HealthAfter(history) == Health(true, false, th.built.nodes, th.built.skipped);
  }

  lemma LockKeepsHealth(health: Health, history: seq<Turn>, th: Thread, pc: Pc)
    requires TurnAndHealthOk(health, history, th)
    requires (th.pc, pc) in {(RecordLock, RecordError), (RecordUnlock, UnlockMu)}
    ensures TurnAndHealthOk(health, history, th.(pc := pc))
  {
  }

  lemma StepIsNote(s: State, tid: nat, c: Choice, tools: Tools)
    requires Enabled(s, tid) && s.threads[tid].pc in {RecordError, RecordSuccess, RecordNodes, RecordSkipped}
    ensures var s', th := Next(s, tid, c, tools), s.threads[tid];
            && s'.log.history == s.log.history && s'.health == Noted(s.health, th)
            && tid in s'.threads && s'.threads[tid] == th.(pc := AfterNote(th))
  {
  }

  lemma StepIsLock(s: State, tid: nat, c: Choice, tools: Tools)
    requires Enabled(s, tid) && s.threads[tid].pc in {RecordLock, RecordUnlock}
    ensures var s', th := Next(s, tid, c, tools), s.threads[tid];
            && s'.log.history == s.log.history && s'.health == s.health
            && tid in s'.threads && s'.threads[tid] == th.(pc := if th.pc == RecordLock then RecordError else UnlockMu)
  {
  }

  lemma RecordKeepsHealth(s: State, tid: nat, c: Choice, tools: Tools)
    requires Enabled(s, tid) && s.threads[tid].pc in RECORDING
    requires TurnAndHealthOk(s.health, s.log.history, s.threads[tid])
    ensures var s' := Next(s, tid, c, tools);
            tid in s'.threads && TurnAndHealthOk(s'.health, s'.log.history, s'.threads[tid])
  {
    var th := s.threads[tid];
    if th.pc in {RecordLock, RecordUnlock} {
      StepIsLock(s, tid, c, tools);
      LockKeepsHealth(s.health, s.log.history, th, if th.pc == RecordLock then RecordError else UnlockMu);
    } else {
      StepIsNote(s, tid, c, tools);
      if th.pc == RecordError {
        VerdictIsNoted(s.health, s.log.history, th);
      } else if th.pc == RecordSkipped {
        SkippedIsNoted(s.health, s.log.history, th);
      } else {
        SuccessIsNoted(s.health, s.log.history, th);
      }
    }
  }

  predicate Records(s: State, tid: nat, s': State) {
    Quiet(s, s'.(health := s.health)) && tid in s'.threads && !InProgress(s'.threads[tid].pc)
  }

  lemma LockIsQuiet(s: State, tid: nat, c: Choice, tools: Tools)
    requires Enabled(s, tid) && s.threads[tid].pc in {RecordLock, RecordUnlock}
    ensures Records(s, tid, Next(s, tid, c, tools))
  {
  }

  lemma RecordIsQuiet(s: State, tid: nat, c: Choice, tools: Tools)
    requires Enabled(s, tid) && s.threads[tid].pc in {RecordError, RecordSuccess, RecordNodes, RecordSkipped}
    ensures Records(s, tid, Next(s, tid, c, tools))
  {
  }

  lemma RecordKeepsCore(s: State, s': State, th: Thread, th': Thread, tools: Tools)
    requires Core(s, Some(th), tools) && Quiet(s, s'.(health := s.health))
    requires !InProgress(th.pc) && !InProgress(th'.pc)
    requires HealthOk(s'.health, s'.log.history, Some(th')) && TurnsOk(s'.log.history, Some(th'))
    ensures Core(s', Some(th'), tools)
  {
  }

  lemma RecordStepKeeps(s: State, tid: nat, c: Choice, tools: Tools)
    requires LocksOk(s) && Enabled(s, tid) && s.threads[tid].pc in RECORDING
    requires Core(s, Some(s.threads[tid]), tools)
    requires var s' := Next(s, tid, c, tools);
             Records(s, tid, s') && TurnAndHealthOk(s'.health, s'.log.history, s'.threads[tid])
    ensures Inv(Next(s, tid, c, tools), tools)
  {
    var s' := Next(s, tid, c, tools);
    RecordKeepsCore(s, s', s.threads[tid], s'.threads[tid], tools);
    Arrival(s, tid, c, tools);
  }

  lemma RecordKeeps(s: State, tid: nat, c: Choice, tools: Tools)
    requires LocksOk(s) && Enabled(s, tid) && Inside(s, tid, tools)
    requires s.threads[tid].pc in RECORDING
    ensures Inv(Next(s, tid, c, tools), tools)
  {
    RecordKeepsHealth(s, tid, c, tools);
    if s.threads[tid].pc in {RecordLock, RecordUnlock} {
      LockIsQuiet(s, tid, c, tools);
    } else {
      RecordIsQuiet(s, tid, c, tools);
    }
    RecordStepKeeps(s, tid, c, tools);
  }

  lemma WriteKeeps(s: State, tid: nat, c: Choice, tools: Tools)
    requires LocksOk(s) && Enabled(s, tid) && Inside(s, tid, tools)
    requires s.threads[tid].pc in {CreateState, WriteState, RenameState}
    ensures Inv(Next(s, tid, c, tools), tools)
  {
    if c.fails {
      PersistFailKeeps(s, tid, c, tools);
    } else if s.threads[tid].pc == RenameState {
      CommitStateKeeps(s, tid, c, tools);
    } else {
      TempKeeps(s, tid, c, tools);
    }
  }

  lemma UndoKeeps(s: State, tid: nat, c: Choice, tools: Tools)
    requires LocksOk(s) && Enabled(s, tid) && Inside(s, tid, tools)
    requires s.threads[tid].pc in {CreateRollback, WriteRollback, RenameRollback}
    ensures Inv(Next(s, tid, c, tools), tools)
  {
    if c.fails {
      RollbackFailKeeps(s, tid, c, tools);
    } else if s.threads[tid].pc == RenameRollback {
      RollbackDoneKeeps(s, tid, c, tools);
    } else {
      TempKeeps(s, tid, c, tools);
    }
  }

  /** The steps of the requests that only read, and the ends of an update. */
  lemma OuterKeeps(s: State, tid: nat, c: Choice, tools: Tools)
    requires Inv(s, tools) && Enabled(s, tid)
    requires s.threads[tid].pc in {WantMu, UnlockMu, ListRead, HealthLock, HealthRead, HealthUnlock}
    ensures Inv(Next(s, tid, c, tools), tools)
  {
    var th := s.threads[tid];
    if th.pc == ListRead {
      ListReadKeeps(s, tid, c, tools);
    } else if th.pc == HealthRead {
      HealthReadKeeps(s, tid, c, tools);
    } else if !th.job.Update? {
      ReadersKeep(s, tid, c, tools);
    } else if th.pc == WantMu {
      AcquireKeeps(s, tid, c, tools);
    } else {
      UnlockKeeps(s, tid, c, tools);
    }
  }

  /** The other steps of an update. */
  lemma InnerKeeps(s: State, tid: nat, c: Choice, tools: Tools)
    requires Inv(s, tools) && Enabled(s, tid)
    requires var pc := s.threads[tid].pc;
             pc in {AttemptLock, AttemptUnlock} || HasMuBeforePersist(pc) || pc in RECORDING
    ensures Inv(Next(s, tid, c, tools), tools)
  {
    var pc := s.threads[tid].pc;
    Outset(s, tid, tools);
    if pc in {AttemptLock, AttemptUnlock} {
      AttemptKeeps(s, tid, c, tools);
    } else if HasMuBeforePersist(pc) {
      PrepareKeeps(s, tid, c, tools);
    } else {
      RecordKeeps(s, tid, c, tools);
    }
  }

  lemma StepKeeps(s: State, tid: nat, c: Choice, tools: Tools)
    requires Inv(s, tools) && Enabled(s, tid)
    ensures Inv(Next(s, tid, c, tools), tools)
  {
    var pc := s.threads[tid].pc;
    if pc in {CreateState, WriteState, RenameState} {
      Outset(s, tid, tools);
      WriteKeeps(s, tid, c, tools);
    } else if pc == RenameOutput {
      Outset(s, tid, tools);
      if c.fails { PublishFailKeeps(s, tid, c, tools); } else { PublishKeeps(s, tid, c, tools); }
    } else if pc in {CreateRollback, WriteRollback, RenameRollback} {
      Outset(s, tid, tools);
      UndoKeeps(s, tid, c, tools);
    } else if pc in {WantMu, UnlockMu, ListRead, HealthLock, HealthRead, HealthUnlock} {
      OuterKeeps(s, tid, c, tools);
    } else {
      InnerKeeps(s, tid, c, tools);
    }
  }

  lemma SpawnKeepsLocks(s: State, s': State, tid: nat, job: Job)
    requires LocksOk(s) && tid !in s.threads
    requires s' == Arrive(s, tid, job)
    ensures LocksOk(s') && Holder(s') == Holder(s)
  {
  }

  lemma SpawnKeeps(s: State, tid: nat, job: Job, tools: Tools)
    requires Inv(s, tools)
    ensures Inv(Step(s, Spawn(tid, job), tools), tools)
  {
    if tid !in s.threads {
      var s' := Arrive(s, tid, job);
      SpawnKeepsLocks(s, s', tid, job);
      UntouchedKeeps(s, s', tools);
    }
  }

  /** The invariant holds in every reachable state. */
  lemma {:induction false} RunKeeps(s: State, events: seq<Event>, tools: Tools)
    requires Inv(s, tools)
    ensures Inv(Exec(s, events, tools), tools)
  {
    if events == [] {
    } else {
      var before, event := Exec(s, events[..|events| - 1], tools), events[|events| - 1];
      RunKeeps(s, events[..|events| - 1], tools);
      match event
      case Spawn(tid, job) => SpawnKeeps(before, tid, job, tools);
      case Run(tid, choice) => if Enabled(before, tid) { StepKeeps(before, tid, choice, tools); }
      case Kill => RestartKeeps(before, tools);
    }
  }
}
