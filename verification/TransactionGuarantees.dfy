/** What clients and operators may rely on, over every run of the transaction system. */
module TransactionGuarantees {
  import opened Wrappers
  import opened Json
  import opened Generation
  import opened Transaction
  import opened TransactionInvariant
  import GenerationFacts

  // ---- serializability ----------------------------------------------------------

  predicate RollbackFails(s: State, event: Event) {
    && event.Run? && event.choice.fails && event.tid in s.threads
    && s.threads[event.tid].pc in {CreateRollback, WriteRollback, RenameRollback}
  }

  /** Anything may fail in this run except the writing back of the state file. */
  predicate RollbacksSucceed(s: State, events: seq<Event>, tools: Tools) {
    events == [] ||
    var before := events[..|events| - 1];
    RollbacksSucceed(s, before, tools) && !RollbackFails(Exec(s, before, tools), events[|events| - 1])
  }

  /** What no step touches in the log, and what only a failed rollback write does. */
  predicate LogKept(s: State, tid: nat, c: Choice, s': State)
    requires tid in s.threads
  {
    && s'.log.firstOutput == s.log.firstOutput
    && s'.log.bootList == s.log.bootList && s'.log.bootOutput == s.log.bootOutput
    && (s.log.clean && !(c.fails && s.threads[tid].pc in {CreateRollback, WriteRollback, RenameRollback}) ==>
      s'.log.clean)
  }

  lemma PrepareKeepsLog(s: State, tid: nat, c: Choice, tools: Tools)
    requires Enabled(s, tid)
              && s.threads[tid].pc in {WantMu, ReadState, Build, CreateCandidate, WriteCandidate, Validate}
    ensures LogKept(s, tid, c, Next(s, tid, c, tools))
  {
  }

  lemma WriteKeepsLog(s: State, tid: nat, c: Choice, tools: Tools)
    requires Enabled(s, tid) && s.threads[tid].pc in {CreateState, WriteState, RenameState, RenameOutput}
    ensures LogKept(s, tid, c, Next(s, tid, c, tools))
  {
  }

  lemma RollbackKeepsLog(s: State, tid: nat, c: Choice, tools: Tools)
    requires Enabled(s, tid) && s.threads[tid].pc in {CreateRollback, WriteRollback, RenameRollback}
    ensures LogKept(s, tid, c, Next(s, tid, c, tools))
  {
  }

  lemma RecordKeepsLog(s: State, tid: nat, c: Choice, tools: Tools)
    requires Enabled(s, tid) && s.threads[tid].pc in RECORDING
    ensures LogKept(s, tid, c, Next(s, tid, c, tools))
  {
    if s.threads[tid].pc in {RecordLock, RecordUnlock} {
      LockIsQuiet(s, tid, c, tools);
    } else {
      RecordIsQuiet(s, tid, c, tools);
    }
    QuietKeepsLog(s, tid, c, Next(s, tid, c, tools));
  }

  lemma QuietKeepsLog(s: State, tid: nat, c: Choice, s': State)
    requires tid in s.threads && Records(s, tid, s')
    ensures LogKept(s, tid, c, s')
  {
  }

  lemma OthersKeepLog(s: State, tid: nat, c: Choice, tools: Tools)
    requires Enabled(s, tid)
    requires s.threads[tid].pc in {AttemptLock, AttemptUnlock, UnlockMu, ListRead, HealthLock, HealthRead, HealthUnlock}
    ensures LogKept(s, tid, c, Next(s, tid, c, tools))
  {
  }

  lemma StepKeepsLog(s: State, tid: nat, c: Choice, tools: Tools)
    requires Enabled(s, tid)
    ensures LogKept(s, tid, c, Next(s, tid, c, tools))
  {
    var pc := s.threads[tid].pc;
    if pc in {WantMu, ReadState, Build, CreateCandidate, WriteCandidate, Validate} {
      PrepareKeepsLog(s, tid, c, tools);
    } else if pc in {CreateState, WriteState, RenameState, RenameOutput} {
      WriteKeepsLog(s, tid, c, tools);
    } else if pc in {CreateRollback, WriteRollback, RenameRollback} {
      RollbackKeepsLog(s, tid, c, tools);
    } else if pc in RECORDING {
      RecordKeepsLog(s, tid, c, tools);
    } else {
      OthersKeepLog(s, tid, c, tools);
    }
  }

  lemma StepStaysClean(s: State, event: Event, tools: Tools)
    requires s.log.clean && !RollbackFails(s, event)
    ensures Step(s, event, tools).log.clean
  {
    if event.Run? && Enabled(s, event.tid) {
      StepKeepsLog(s, event.tid, event.choice, tools);
    }
  }

  lemma {:induction false} RunStaysClean(s: State, events: seq<Event>, tools: Tools)
    requires s.log.clean && RollbacksSucceed(s, events, tools)
    ensures Exec(s, events, tools).log.clean
  {
    if events == [] {
    } else {
      var before := events[..|events| - 1];
      RunStaysClean(s, before, tools);
      StepStaysClean(Exec(s, before, tools), events[|events| - 1], tools);
    }
  }

  /** Everything visible agrees with running the successful turns one after another in lock order. */
  predicate Serial(s: State, tools: Tools) {
    && (s.mu.None? ==>
          && Settled(s.log.history, |s.log.history|)
          && Decoded(s.files.state) == SerialList(s.log.bootList, s.log.history))
    && s.files.output == SerialOutput(s.log.bootOutput, s.log.bootList, s.log.history, tools)
    && forall i :: 0 <= i < |s.log.lists| ==> ListSerial(s.log.lists[i], s)
  }

  /** A list read shows the successful ones among the first so many turns, all of them decided. */
  predicate ListSerial(answer: ListAnswer, s: State) {
    && answer.turns <= |s.log.history|
    && Settled(s.log.history[..answer.turns], answer.turns)
    && answer.list == SerialList(s.log.bootList, s.log.history[..answer.turns])
  }

  lemma InvIsSerial(s: State, tools: Tools)
    requires Inv(s, tools) && s.log.clean
    ensures Serial(s, tools)
  {
  }

  predicate NoKill(events: seq<Event>) {
    forall i :: 0 <= i < |events| ==> !events[i].Kill?
  }

  lemma {:induction false} StartStays(s: State, events: seq<Event>, tools: Tools)
    requires NoKill(events)
    ensures var s' := Exec(s, events, tools); s'.log.bootList == s.log.bootList && s'.log.bootOutput == s.log.bootOutput
  {
    if events != [] {
      var n := |events| - 1;
      StartStays(s, events[..n], tools);
      if events[n].Run? && Enabled(Exec(s, events[..n], tools), events[n].tid) {
        StepKeepsLog(Exec(s, events[..n], tools), events[n].tid, events[n].choice, tools);
      }
    }
  }

  /**
   Updates that overlap in time behave as if they had run one by one, from the files that were
   there when the process started.
   */
  lemma UpdatesAreSerial(state: File<seq<Subscription>>, output: File<Object>, events: seq<Event>, tools: Tools)
    requires RollbacksSucceed(Boot(state, output), events, tools)
    ensures Serial(Exec(Boot(state, output), events, tools), tools)
    ensures NoKill(events) ==>
              var log := Exec(Boot(state, output), events, tools).log;
              log.bootList == Decoded(state) && log.bootOutput == output
  {
    if NoKill(events) {
      StartStays(Boot(state, output), events, tools);
    }
    BootHolds(state, output, tools);
    RunKeeps(Boot(state, output), events, tools);
    RunStaysClean(Boot(state, output), events, tools);
    InvIsSerial(Exec(Boot(state, output), events, tools), tools);
  }

  // ---- what the serial order means ------------------------------------------------

  lemma {:induction false} OthersStay(subs: seq<Subscription>, name: string, sub: Subscription)
    ensures sub in Others(subs, name) <==> sub in subs && sub.name != name
  {
    if subs == [] {
    } else {
      OthersStay(subs[..|subs| - 1], name, sub);
      assert subs == subs[..|subs| - 1] + [subs[|subs| - 1]];
    }
  }

  /** A subscription that was added successfully is there until a later success replaces that name. */
  lemma {:induction false} NoAddIsLost(start: seq<Subscription>, turns: seq<Turn>, i: nat)
    requires i < |turns| && turns[i].outcome.Committed? && turns[i].add.Some?
    requires forall j :: i < j < |turns| && turns[j].outcome.Committed? && turns[j].add.Some? ==>
               turns[j].add.value.name != turns[i].add.value.name
    ensures turns[i].add.value in SerialList(start, turns)
  {
    var n := |turns| - 1;
    if i < n {
      NoAddIsLost(start, turns[..n], i);
      if turns[n].add.Some? {
        OthersStay(SerialList(start, turns[..n]), turns[n].add.value.name, turns[i].add.value);
      }
    }
  }

  /** Nothing else gets in: an entry was there at first or was added by a success. */
  lemma {:induction false} NothingElseAppears(start: seq<Subscription>, turns: seq<Turn>, sub: Subscription)
    requires sub in SerialList(start, turns) && sub !in start
    ensures exists i :: 0 <= i < |turns| && turns[i].outcome.Committed? && turns[i].add == Some(sub)
  {
    var n := |turns| - 1;
    var before := SerialList(start, turns[..n]);
    if turns[n].outcome.Committed? && turns[n].add == Some(sub) {
    } else {
      if turns[n].add.Some? {
        OthersStay(before, turns[n].add.value.name, sub);
      }
      NothingElseAppears(start, turns[..n], sub);
    }
  }

  predicate NamesDiffer(subs: seq<Subscription>) {
    forall i, j :: 0 <= i < j < |subs| ==> subs[i].name != subs[j].name
  }

  lemma {:induction false} OthersDiffer(subs: seq<Subscription>, name: string)
    requires NamesDiffer(subs)
    ensures NamesDiffer(Others(subs, name))
  {
    if subs == [] {
    } else {
      var n := |subs| - 1;
      OthersDiffer(subs[..n], name);
      forall sub | sub in Others(subs[..n], name) ensures sub.name != subs[n].name {
        OthersStay(subs[..n], name, sub);
      }
    }
  }

  /** No run of updates ever leaves two subscriptions of one name. */
  lemma {:induction false} NamesStayDistinct(start: seq<Subscription>, turns: seq<Turn>)
    requires NamesDiffer(start)
    ensures NamesDiffer(SerialList(start, turns))
  {
    if turns == [] {
    } else {
      var n := |turns| - 1;
      NamesStayDistinct(start, turns[..n]);
      if turns[n].add.Some? {
        var before, add := SerialList(start, turns[..n]), turns[n].add.value;
        OthersDiffer(before, add.name);
        forall sub | sub in Others(before, add.name) ensures sub.name != add.name {
          OthersStay(before, add.name, sub);
        }
      }
    }
  }

  /** Histories that agree so far go on agreeing. */
  predicate AgreeOn(start: seq<Subscription>, output: File<Object>, a: seq<Turn>, b: seq<Turn>, tools: Tools) {
    && SerialList(start, a) == SerialList(start, b)
    && SerialOutput(output, start, a, tools) == SerialOutput(output, start, b, tools)
  }

  lemma AgreementGoesOn(
      start: seq<Subscription>, output: File<Object>, a: seq<Turn>, b: seq<Turn>, turn: Turn, tools: Tools)
    requires AgreeOn(start, output, a, b, tools)
    ensures AgreeOn(start, output, a + [turn], b + [turn], tools)
  {
    assert (a + [turn])[..|a|] == a && (b + [turn])[..|b|] == b;
  }

  /** An update that failed might as well never have been asked for. */
  lemma {:induction false} FailureChangesNothing(
      start: seq<Subscription>, output: File<Object>, turns: seq<Turn>, i: nat, tools: Tools)
    requires i < |turns| && !turns[i].outcome.Committed?
    ensures AgreeOn(start, output, turns[..i] + turns[i + 1..], turns, tools)
  {
    var n := |turns| - 1;
    var front := turns[..n];
    if i == n {
      assert turns[..i] + turns[i + 1..] == front;
    } else {
      var without := front[..i] + front[i + 1..];
      FailureChangesNothing(start, output, front, i, tools);
      AgreementGoesOn(start, output, without, front, turns[n], tools);
      assert turns == front + [turns[n]];
      assert turns[..i] + turns[i + 1..] == without + [turns[n]];
    }
  }

  // ---- health ---------------------------------------------------------------------

  predicate Ready(h: Health) {
    h.succeeded && !h.failing
  }

  function LastSuccess(turns: seq<Turn>): Option<Built> {
    if turns == [] then None
    else match turns[|turns| - 1].outcome
      case Committed(_, built) => Some(built)
      case _ => LastSuccess(turns[..|turns| - 1])
  }

  predicate Counts(h: Health, success: Option<Built>) {
    match success
    case None => h.nodes == 0 && h.skipped == 0
    case Some(built) => h.nodes == built.nodes && h.skipped == built.skipped
  }

  /** Ready exactly when the last turn succeeded; both counts come from one and the same success. */
  lemma {:induction false} HealthSaysLastTurn(turns: seq<Turn>)
    ensures Ready(HealthAfter(turns)) <==> turns != [] && turns[|turns| - 1].outcome.Committed?
    ensures HealthAfter(turns).succeeded <==> LastSuccess(turns).Some?
    ensures Counts(HealthAfter(turns), LastSuccess(turns))
  {
    if turns == [] {
    } else {
      HealthSaysLastTurn(turns[..|turns| - 1]);
    }
  }

  predicate AnswerTrue(answer: HealthAnswer, history: seq<Turn>) {
    && answer.turns <= |history|
    && Settled(history[..answer.turns], answer.turns)
    && (Ready(answer.health) <==> answer.turns > 0 && history[answer.turns - 1].outcome.Committed?)
    && Counts(answer.health, LastSuccess(history[..answer.turns]))
  }

  lemma AnswerIsTrue(s: State, i: nat, tools: Tools)
    requires Inv(s, tools) && i < |s.log.answers|
    ensures AnswerTrue(s.log.answers[i], s.log.history)
  {
    HealthSaysLastTurn(s.log.history[..s.log.answers[i].turns]);
  }

  /** In any run, whatever fails, every health answer describes the turns recorded by then. */
  lemma HealthIsTrue(state: File<seq<Subscription>>, output: File<Object>, events: seq<Event>, tools: Tools)
    ensures var s := Exec(Boot(state, output), events, tools);
            forall i :: 0 <= i < |s.log.answers| ==> AnswerTrue(s.log.answers[i], s.log.history)
  {
    var s := Exec(Boot(state, output), events, tools);
    BootHolds(state, output, tools);
    RunKeeps(Boot(state, output), events, tools);
    forall i | 0 <= i < |s.log.answers| ensures AnswerTrue(s.log.answers[i], s.log.history) {
      AnswerIsTrue(s, i, tools);
    }
  }

  // ---- crashes and failed rollbacks -------------------------------------------------

  /** The output is untouched, or a validated generation of the persisted list or an earlier one. */
  ghost predicate Vetted(s: State, tools: Tools) {
    || s.files.output == s.log.firstOutput
    || exists version, source ::
         0 <= version < |s.log.versions| && GeneratedFrom(s.files.output, s.log.versions[version], source, tools)
  }

  lemma StepKeepsFirstOutput(s: State, event: Event, tools: Tools)
    ensures Step(s, event, tools).log.firstOutput == s.log.firstOutput
  {
    if event.Run? && Enabled(s, event.tid) {
      StepKeepsLog(s, event.tid, event.choice, tools);
    }
  }

  lemma {:induction false} FirstOutputStays(s: State, events: seq<Event>, tools: Tools)
    ensures Exec(s, events, tools).log.firstOutput == s.log.firstOutput
  {
    if events == [] {
    } else {
      FirstOutputStays(s, events[..|events| - 1], tools);
      StepKeepsFirstOutput(Exec(s, events[..|events| - 1], tools), events[|events| - 1], tools);
    }
  }

  predicate Persisted(s: State) {
    s.log.versions != [] && s.log.versions[|s.log.versions| - 1] == Decoded(s.files.state)
  }

  lemma InvIsVetted(s: State, tools: Tools)
    requires PersistedOk(s.files, s.log) && exists window :: OriginOk(s.files.output, s.log, window, tools)
    ensures Vetted(s, tools) && Persisted(s)
  {
    if s.log.origin.Some? {
      assert GeneratedFrom(s.files.output, s.log.versions[s.log.origin.value.version], s.log.origin.value.source,
        tools);
    }
  }

  lemma ReachedIsVetted(s: State, tools: Tools)
    requires Inv(s, tools)
    ensures Vetted(s, tools) && Persisted(s)
  {
    assert OriginOk(s.files.output, s.log, InWindow(Holder(s)), tools);
    InvIsVetted(s, tools);
  }

  /** At every instant of every run, crashes and failed rollbacks included. */
  lemma OutputIsVetted(state: File<seq<Subscription>>, output: File<Object>, events: seq<Event>, tools: Tools)
    ensures var s := Exec(Boot(state, output), events, tools);
            Vetted(s, tools) && Persisted(s) && s.log.firstOutput == output
  {
    BootHolds(state, output, tools);
    RunKeeps(Boot(state, output), events, tools);
    FirstOutputStays(Boot(state, output), events, tools);
    ReachedIsVetted(Exec(Boot(state, output), events, tools), tools);
  }

  /** Whatever went before, an update that publishes makes the output a generation of the list on disk. */
  lemma SuccessHeals(state: File<seq<Subscription>>, output: File<Object>, events: seq<Event>, tid: nat, c: Choice,
      tools: Tools)
    requires var s := Exec(Boot(state, output), events, tools);
             Enabled(s, tid) && s.threads[tid].pc == RenameOutput && !c.fails
    ensures var s := Exec(Boot(state, output), events, tools);
            var s' := Next(s, tid, c, tools);
            GeneratedFrom(s'.files.output, Decoded(s'.files.state), s.threads[tid].source, tools)
  {
    BootHolds(state, output, tools);
    RunKeeps(Boot(state, output), events, tools);
    PublishedMatchesList(Exec(Boot(state, output), events, tools), tid, c, tools);
  }

  lemma PublishedMatchesList(s: State, tid: nat, c: Choice, tools: Tools)
    requires Inv(s, tools) && Enabled(s, tid) && s.threads[tid].pc == RenameOutput && !c.fails
    ensures var s' := Next(s, tid, c, tools);
            GeneratedFrom(s'.files.output, Decoded(s'.files.state), s.threads[tid].source, tools)
  {
    assert Holder(s) == Some(s.threads[tid]);
  }

  function LastSource(turns: seq<Turn>): Option<Source> {
    if turns == [] then None
    else match turns[|turns| - 1].outcome
      case Committed(source, _) => Some(source)
      case _ => LastSource(turns[..|turns| - 1])
  }

  /** Between updates, once one has succeeded, the config on disk is the one generated from the list on disk. */
  lemma {:induction false} FilesAgree(output: File<Object>, start: seq<Subscription>, turns: seq<Turn>, tools: Tools)
    requires LastSource(turns).Some?
    ensures var source := LastSource(turns).value;
            SerialOutput(output, start, turns, tools) ==
              match tools.generate(source.base, SerialList(start, turns), source.world)
              case Some(built) => Whole(built.config)
              case None => Garbled
  {
    if !turns[|turns| - 1].outcome.Committed? {
      FilesAgree(output, start, turns[..|turns| - 1], tools);
    }
  }

  // ---- deadlock -----------------------------------------------------------------------

  /** As long as some request is unanswered, some thread can take a step. */
  lemma NeverStuck(state: File<seq<Subscription>>, output: File<Object>, events: seq<Event>, tid: nat, tools: Tools)
    requires var s := Exec(Boot(state, output), events, tools);
             tid in s.threads && s.threads[tid].pc != Done
    ensures exists t :: Enabled(Exec(Boot(state, output), events, tools), t)
  {
    BootHolds(state, output, tools);
    RunKeeps(Boot(state, output), events, tools);
    NoDeadlock(Exec(Boot(state, output), events, tools), tid);
  }

  /** How many more steps a request can take, at most. */
  function StepsLeft(pc: Pc): nat {
    match pc
    case WantMu => 22
    case AttemptLock => 21
    case AttemptUnlock => 20
    case ReadState => 19
    case Build => 18
    case CreateCandidate => 17
    case WriteCandidate => 16
    case Validate => 15
    case CreateState => 14
    case WriteState => 13
    case RenameState => 12
    case RenameOutput => 11
    case CreateRollback => 10
    case WriteRollback => 9
    case RenameRollback => 8
    case RecordLock => 7
    case RecordError => 6
    case RecordSuccess => 5
    case RecordNodes => 4
    case RecordSkipped => 3
    case RecordUnlock => 2
    case ListRead => 2
    case UnlockMu => 1
    case HealthLock => 3
    case HealthRead => 2
    case HealthUnlock => 1
    case Done => 0
  }

  predicate Nearer(s: State, tid: nat, s': State)
    requires tid in s.threads
  {
    tid in s'.threads && StepsLeft(s'.threads[tid].pc) < StepsLeft(s.threads[tid].pc)
  }

  lemma EarlyStepsProgress(s: State, tid: nat, c: Choice, tools: Tools)
    requires Enabled(s, tid) && s.threads[tid].pc in {WantMu, AttemptLock, AttemptUnlock, ReadState, Build}
    ensures Nearer(s, tid, Next(s, tid, c, tools))
  {
  }

  lemma CandidateStepsProgress(s: State, tid: nat, c: Choice, tools: Tools)
    requires Enabled(s, tid) && s.threads[tid].pc in {CreateCandidate, WriteCandidate, Validate, RenameOutput}
    ensures Nearer(s, tid, Next(s, tid, c, tools))
  {
  }

  lemma PersistStepsProgress(s: State, tid: nat, c: Choice, tools: Tools)
    requires Enabled(s, tid) && s.threads[tid].pc in {CreateState, WriteState, RenameState}
    ensures Nearer(s, tid, Next(s, tid, c, tools))
  {
  }

  lemma RollbackStepsProgress(s: State, tid: nat, c: Choice, tools: Tools)
    requires Enabled(s, tid) && s.threads[tid].pc in {CreateRollback, WriteRollback, RenameRollback}
    ensures Nearer(s, tid, Next(s, tid, c, tools))
  {
  }

  lemma RecordStepsProgress(s: State, tid: nat, c: Choice, tools: Tools)
    requires Enabled(s, tid) && s.threads[tid].pc in RECORDING
    ensures Nearer(s, tid, Next(s, tid, c, tools))
  {
  }

  lemma ReadStepsProgress(s: State, tid: nat, c: Choice, tools: Tools)
    requires Enabled(s, tid) && s.threads[tid].pc in {UnlockMu, ListRead, HealthLock, HealthRead, HealthUnlock}
    ensures Nearer(s, tid, Next(s, tid, c, tools))
  {
  }

  /** Waiting for a lock is the only way not to come nearer to an answer. */
  lemma EveryStepIsProgress(s: State, tid: nat, c: Choice, tools: Tools)
    requires Enabled(s, tid)
    ensures Nearer(s, tid, Next(s, tid, c, tools))
  {
    var pc := s.threads[tid].pc;
    if pc in {WantMu, AttemptLock, AttemptUnlock, ReadState, Build} {
      EarlyStepsProgress(s, tid, c, tools);
    } else if pc in {CreateCandidate, WriteCandidate, Validate, RenameOutput} {
      CandidateStepsProgress(s, tid, c, tools);
    } else if pc in {CreateState, WriteState, RenameState} {
      PersistStepsProgress(s, tid, c, tools);
    } else if pc in {CreateRollback, WriteRollback, RenameRollback} {
      RollbackStepsProgress(s, tid, c, tools);
    } else if pc in RECORDING {
      RecordStepsProgress(s, tid, c, tools);
    } else {
      ReadStepsProgress(s, tid, c, tools);
    }
  }

  // ---- with the manager's own generation --------------------------------------------

  function ManagerTools(validate: Object -> bool): Tools {
    Tools(Generate, validate)
  }

  /** A generated config file: tags that tell its outbounds apart, and nothing the checker refuses. */
  predicate Sound(output: File<Object>, validate: Object -> bool) {
    output.Whole? && validate(output.value) && NonEmptyTagsDiffer(Outbounds(output.value))
  }

  lemma GeneratedIsSound(output: File<Object>, list: seq<Subscription>, source: Source, validate: Object -> bool)
    requires GeneratedFrom(output, list, source, ManagerTools(validate))
    ensures Sound(output, validate)
  {
    GenerationFacts.TagsAreDistinct(source.base, list, source.world);
  }

  /** A reader of the config file, at any instant of any run, sees the first file or a sound one. */
  lemma OutputIsSound(state: File<seq<Subscription>>, output: File<Object>, events: seq<Event>,
      validate: Object -> bool)
    ensures var now := Exec(Boot(state, output), events, ManagerTools(validate)).files.output;
            now == output || Sound(now, validate)
  {
    var tools := ManagerTools(validate);
    var s := Exec(Boot(state, output), events, tools);
    OutputIsVetted(state, output, events, tools);
    if s.files.output != output {
      var version, source :| 0 <= version < |s.log.versions|
        && GeneratedFrom(s.files.output, s.log.versions[version], source, tools);
      GeneratedIsSound(s.files.output, s.log.versions[version], source, validate);
    }
  }
}
