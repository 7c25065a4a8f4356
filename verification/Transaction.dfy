/**
 The manager's transaction as a step system: any number of updates, list reads and health
 reads interleave at every lock operation, file operation and health field; any step that
 can fail may fail, and the process may be killed between any two steps.
 */
module Transaction {
  import opened Wrappers
  import opened Json
  import opened Generation

  /** What the transaction calls out to: how a config is generated, and the external config checker. */
  datatype Tools = Tools(generate: (Object, seq<Subscription>, World) -> Option<Built>, validate: Object -> bool)

  // ---- files ----------------------------------------------------------------

  /** `Garbled` is content that does not decode, such as a file caught half written. */
  datatype File<T> = Absent | Garbled | Whole(value: T)

  datatype Files = Files(
    state: File<seq<Subscription>>, stateTemp: File<seq<Subscription>>,
    output: File<Object>, candidate: File<Object>)

  /** An absent state file reads as an empty list, and so does the `null` a rollback to it writes. */
  function Decoded(f: File<seq<Subscription>>): seq<Subscription> {
    if f.Whole? then f.value else []
  }

  // ---- threads --------------------------------------------------------------

  /** A refresh is an update that adds nothing; the background build is one too. */
  datatype Job = Update(add: Option<Subscription>) | ListNames | ReadHealth

  datatype Pc =
    | WantMu
    | AttemptLock | AttemptUnlock
    | ReadState | Build | CreateCandidate | WriteCandidate | Validate
    | CreateState | WriteState | RenameState | RenameOutput
    | CreateRollback | WriteRollback | RenameRollback
    | RecordLock | RecordError | RecordSuccess | RecordNodes | RecordSkipped | RecordUnlock
    | UnlockMu
    | ListRead
    | HealthLock | HealthRead | HealthUnlock
    | Done

  const NO_BUILT := Built(map[], 0, [], 0)
  const NO_SOURCE := Source(map[], World(map[], map[]))

  /** What one generation was given besides the list. */
  datatype Source = Source(base: Object, world: World)

  /** The named result of an update: what its caller is answered, and what its health record goes by. */
  datatype Answer = Unanswered | Succeeded | Failed

  datatype Thread = Thread(
    job: Job, pc: Pc, list: seq<Subscription>, next: seq<Subscription>, built: Built, source: Source, result: Answer)

  function NewThread(job: Job): Thread {
    Thread(job, if job.ReadHealth? then HealthLock else WantMu, [], [], NO_BUILT, NO_SOURCE, Unanswered)
  }

  predicate Persists(th: Thread) {
    th.job.Update? && th.job.add.Some?
  }

  function NextList(job: Job, list: seq<Subscription>): seq<Subscription> {
    if job.Update? && job.add.Some? then Replaced(list, job.add.value) else list
  }

  // ---- what an observer keeps -------------------------------------------------

  datatype Outcome = Pending | Committed(source: Source, built: Built) | Rejected

  /** One update, entered here when it acquires the transaction lock. */
  datatype Turn = Turn(tid: nat, add: Option<Subscription>, outcome: Outcome)

  /** `failing` stands for a nonempty last error, `succeeded` for a last success time. */
  datatype Health = Health(succeeded: bool, failing: bool, nodes: nat, skipped: nat)

  const UNKNOWN := Health(false, false, 0, 0)

  /** Which persisted list, and with what, the output was generated from; None if it was there at first. */
  datatype Origin = Origin(version: nat, source: Source)

  /** A list read or health read, with the number of turns that were decided or recorded then. */
  datatype ListAnswer = ListAnswer(tid: nat, list: seq<Subscription>, turns: nat)
  datatype HealthAnswer = HealthAnswer(tid: nat, health: Health, turns: nat)

  /**
   What an observer notes; it steers no step. `turnOf` is the place of an update's turn in
   the history, `before` the updates that were answered when a request arrived. All of this
   starts afresh with the process, except for `versions`, the successive contents of the
   state file, `firstOutput` and `origin`. `clean` is lost when a rollback write fails.
   */
  datatype Log = Log(
    history: seq<Turn>, turnOf: map<nat, nat>, before: map<nat, set<nat>>,
    bootList: seq<Subscription>, bootOutput: File<Object>, clean: bool,
    lists: seq<ListAnswer>, answers: seq<HealthAnswer>,
    versions: seq<seq<Subscription>>, firstOutput: File<Object>, origin: Option<Origin>)

  datatype State = State(
    files: Files, threads: map<nat, Thread>, mu: Option<nat>, healthMu: Option<nat>, health: Health, log: Log)

  function Boot(state: File<seq<Subscription>>, output: File<Object>): State {
    var list := Decoded(state);
    State(Files(state, Absent, output, Absent), map[], None, None, UNKNOWN,
      Log([], map[], map[], list, output, true, [], [], [list], output, None))
  }

  // ---- steps ----------------------------------------------------------------

  /** What the environment decides in a step: whether it fails, and what a build is given. */
  datatype Choice = Choice(fails: bool, source: Source)

  datatype Event = Spawn(tid: nat, job: Job) | Run(tid: nat, choice: Choice) | Kill

  predicate Enabled(s: State, tid: nat) {
    && tid in s.threads
    && match s.threads[tid].pc
       case WantMu => s.mu.None?
       case AttemptLock => s.healthMu.None?
       case RecordLock => s.healthMu.None?
       case HealthLock => s.healthMu.None?
       case Done => false
       case _ => true
  }

  function At(s: State, tid: nat, pc: Pc): State
    requires tid in s.threads
  {
    s.(threads := s.threads[tid := s.threads[tid].(pc := pc)])
  }

  /** The latest turn is decided. */
  function Decide(log: Log, outcome: Outcome): Log {
    if log.history == [] then log else
    var n := |log.history| - 1;
    log.(history := log.history[..n] + [log.history[n].(outcome := outcome)])
  }

  /** An update returns: its result is set, and the health record is what is left to do. */
  function Return(s: State, tid: nat, result: Answer): State
    requires tid in s.threads
  {
    s.(threads := s.threads[tid := s.threads[tid].(pc := RecordLock, result := result)])
  }

  /** An error return, after the deferred removal of the candidate. */
  function Reject(s: State, tid: nat): State
    requires tid in s.threads
  {
    Return(s.(files := s.files.(candidate := Absent), log := Decide(s.log, Rejected)), tid, Failed)
  }

  function Entered(log: Log, tid: nat, add: Option<Subscription>): Log {
    log.(history := log.history + [Turn(tid, add, Pending)], turnOf := log.turnOf[tid := |log.history|])
  }

  function AcquireMu(s: State, tid: nat): State
    requires tid in s.threads
  {
    var th := s.threads[tid];
    if th.job.Update?
    then At(s.(mu := Some(tid), log := Entered(s.log, tid, th.job.add)), tid, AttemptLock)
    else At(s.(mu := Some(tid)), tid, ListRead)
  }

  function StepRead(s: State, tid: nat, c: Choice): State
    requires tid in s.threads
  {
    if c.fails || s.files.state.Garbled? then Reject(s, tid) else
    var th := s.threads[tid];
    var list := Decoded(s.files.state);
    s.(threads := s.threads[tid := th.(list := list, next := NextList(th.job, list), pc := Build)])
  }

  function StepBuild(s: State, tid: nat, c: Choice, tools: Tools): State
    requires tid in s.threads
  {
    var th := s.threads[tid];
    var built := tools.generate(c.source.base, th.next, c.source.world);
    if c.fails || built.None? then Reject(s, tid)
    else s.(threads := s.threads[tid := th.(built := built.value, source := c.source, pc := CreateCandidate)])
  }

  function StepPublish(s: State, tid: nat, c: Choice): State
    requires tid in s.threads
  {
    var th := s.threads[tid];
    if c.fails then (if Persists(th) then At(s, tid, CreateRollback) else Reject(s, tid))
    else
      var log := s.log.(origin := if |s.log.versions| > 0 then Some(Origin(|s.log.versions| - 1, th.source)) else None);
      var renamed := s.(
        files := s.files.(output := s.files.candidate, candidate := Absent),
        log := Decide(log, Committed(th.source, th.built)));
      Return(renamed, tid, Succeeded)
  }

  /** `writeJSONAtomic` of the list: create, write, rename; each may fail. */
  function StepPersist(s: State, tid: nat, c: Choice): State
    requires tid in s.threads
  {
    var th := s.threads[tid];
    if c.fails then Reject(s.(files := s.files.(stateTemp := Absent)), tid)
    else match th.pc
      case CreateState => At(s.(files := s.files.(stateTemp := Garbled)), tid, WriteState)
      case WriteState => At(s.(files := s.files.(stateTemp := Whole(th.next))), tid, RenameState)
      case _ =>
        var renamed := s.files.(state := s.files.stateTemp, stateTemp := Absent);
        var log := s.log.(versions := s.log.versions + [Decoded(s.files.stateTemp)]);
        At(s.(files := renamed, log := log), tid, RenameOutput)
  }

  function StepRollback(s: State, tid: nat, c: Choice): State
    requires tid in s.threads
  {
    var th := s.threads[tid];
    if c.fails then Reject(s.(files := s.files.(stateTemp := Absent), log := s.log.(clean := false)), tid)
    else match th.pc
      case CreateRollback => At(s.(files := s.files.(stateTemp := Garbled)), tid, WriteRollback)
      case WriteRollback => At(s.(files := s.files.(stateTemp := Whole(th.list))), tid, RenameRollback)
      case _ =>
        var restored := s.files.(state := s.files.stateTemp, stateTemp := Absent);
        var log := s.log.(versions := if |s.log.versions| > 0 then s.log.versions[..|s.log.versions| - 1] else []);
        Reject(s.(files := restored, log := log), tid)
  }

  /** The health fields are set one by one, the error first. */
  function Noted(health: Health, th: Thread): Health {
    match th.pc
    case RecordError => health.(failing := th.result != Succeeded)
    case RecordSuccess => health.(succeeded := true)
    case RecordNodes => health.(nodes := th.built.nodes)
    case _ => health.(skipped := th.built.skipped)
  }

  function AfterNote(th: Thread): Pc {
    match th.pc
    case RecordError => if th.result == Succeeded then RecordSuccess else RecordUnlock
    case RecordSuccess => RecordNodes
    case RecordNodes => RecordSkipped
    case _ => RecordUnlock
  }

  function StepRecord(s: State, tid: nat): State
    requires tid in s.threads
  {
    var th := s.threads[tid];
    At(s.(health := Noted(s.health, th)), tid, AfterNote(th))
  }

  /** How many turns the health fields account for. */
  function Recorded(s: State): nat {
    if s.mu.Some? && s.mu.value in s.threads && s.log.history != [] && Unrecorded(s.threads[s.mu.value].pc)
    then |s.log.history| - 1 else |s.log.history|
  }

  predicate Unrecorded(pc: Pc) {
    pc !in {RecordUnlock, UnlockMu, ListRead}
  }

  /** The step a thread takes next. */
  function Next(s: State, tid: nat, c: Choice, tools: Tools): State
    requires Enabled(s, tid)
  {
    var th := s.threads[tid];
    match th.pc
    case WantMu => AcquireMu(s, tid)
    case AttemptLock => At(s.(healthMu := Some(tid)), tid, AttemptUnlock)
    case AttemptUnlock => At(s.(healthMu := None), tid, ReadState)
    case ReadState => StepRead(s, tid, c)
    case Build => StepBuild(s, tid, c, tools)
    case CreateCandidate =>
      if c.fails then Reject(s, tid) else At(s.(files := s.files.(candidate := Garbled)), tid, WriteCandidate)
    case WriteCandidate =>
      if c.fails then Reject(s, tid) else At(s.(files := s.files.(candidate := Whole(th.built.config))), tid, Validate)
    case Validate =>
      if c.fails || !s.files.candidate.Whole? || !tools.validate(s.files.candidate.value) then Reject(s, tid)
      else At(s, tid, if Persists(th) then CreateState else RenameOutput)
    case RenameOutput => StepPublish(s, tid, c)
    case RecordLock => At(s.(healthMu := Some(tid)), tid, RecordError)
    case RecordUnlock => At(s.(healthMu := None), tid, UnlockMu)
    case UnlockMu => At(s.(mu := None), tid, Done)
    case ListRead =>
      var lists := if c.fails || s.files.state.Garbled? then s.log.lists
                   else s.log.lists + [ListAnswer(tid, Decoded(s.files.state), |s.log.history|)];
      At(s.(log := s.log.(lists := lists)), tid, UnlockMu)
    case HealthLock => At(s.(healthMu := Some(tid)), tid, HealthRead)
    case HealthRead =>
      var answers := s.log.answers + [HealthAnswer(tid, s.health, Recorded(s))];
      At(s.(log := s.log.(answers := answers)), tid, HealthUnlock)
    case HealthUnlock => At(s.(healthMu := None), tid, Done)
    case Done => s
    case _ =>
      if th.pc in {CreateState, WriteState, RenameState} then StepPersist(s, tid, c)
      else if th.pc in {CreateRollback, WriteRollback, RenameRollback} then StepRollback(s, tid, c)
      else StepRecord(s, tid)
  }

  /** The process dies and a new one starts on the same files. */
  function Restart(s: State): State {
    State(
      s.files.(stateTemp := Absent, candidate := Absent), map[], None, None, UNKNOWN,
      Log([], map[], map[], Decoded(s.files.state), s.files.output, true, [], [],
          s.log.versions, s.log.firstOutput, s.log.origin))
  }

  /** The updates whose callers have their answer. */
  function Answered(s: State): set<nat> {
    set t | t in s.threads && s.threads[t].job.Update? && s.threads[t].pc == Done
  }

  function Arrive(s: State, tid: nat, job: Job): State {
    s.(threads := s.threads[tid := NewThread(job)], log := s.log.(before := s.log.before[tid := Answered(s)]))
  }

  function Step(s: State, event: Event, tools: Tools): State {
    match event
    case Spawn(tid, job) => if tid in s.threads then s else Arrive(s, tid, job)
    case Run(tid, choice) => if Enabled(s, tid) then Next(s, tid, choice, tools) else s
    case Kill => Restart(s)
  }

  /** A whole run: any events, in any order. */
  function Exec(s: State, events: seq<Event>, tools: Tools): State {
    if events == [] then s else Step(Exec(s, events[..|events| - 1], tools), events[|events| - 1], tools)
  }

  // ---- the serial specification -----------------------------------------------

  /** One update after the other, the successful ones only. */
  function SerialList(start: seq<Subscription>, turns: seq<Turn>): seq<Subscription> {
    if turns == [] then start else
    var before, last := SerialList(start, turns[..|turns| - 1]), turns[|turns| - 1];
    if last.outcome.Committed? then NextList(Update(last.add), before) else before
  }

  function SerialOutput(start: File<Object>, list: seq<Subscription>, turns: seq<Turn>, tools: Tools): File<Object> {
    if turns == [] then start else
    var before, last := turns[..|turns| - 1], turns[|turns| - 1];
    match last.outcome
    case Committed(source, _) =>
      (match tools.generate(source.base, NextList(Update(last.add), SerialList(list, before)), source.world)
       case Some(built) => Whole(built.config)
       case None => Garbled)
    case _ => SerialOutput(start, list, before, tools)
  }

  /** What the health endpoint should say after these turns. */
  function HealthAfter(turns: seq<Turn>): Health {
    if turns == [] then UNKNOWN else
    var before := HealthAfter(turns[..|turns| - 1]);
    match turns[|turns| - 1].outcome
    case Committed(_, built) => Health(true, false, built.nodes, built.skipped)
    case _ => before.(failing := true)
  }
}
