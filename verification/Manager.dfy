/** The manager's own code for one update at a time, on its files and health fields. */
module Manager {
  import opened Wrappers
  import opened Json
  import opened Generation
  import opened Transaction
  import opened TransactionGuarantees
  import Builder

  datatype WriteFault = NoFault | AtCreate | AtWrite | AtRename

  /** Which of the operations that can fail do, during one update. */
  datatype Faults = Faults(
    readState: bool, readBase: bool, createCandidate: bool, writeCandidate: bool,
    persist: WriteFault, publish: bool, rollback: WriteFault)

  datatype UpdateError =
    | ReadStateFailed
    | ReadBaseFailed
    | DecodeBaseFailed
    | BuildFailed(error: Builder.BuildError)
    | CreateCandidateFailed
    | WriteCandidateFailed
    | ValidationFailed
    | PersistFailed
    | PublishAndRollbackFailed
    | PublishFailed

  function OutcomeOf(base: File<Object>, w: World, r: Result<Built, UpdateError>): Outcome {
    if r.Ok? && base.Whole? then Committed(Source(base.value, w), r.value) else Rejected
  }

  /** What one more turn does to the three functions that describe the serial order. */
  lemma TurnTaken(bootOutput: File<Object>, bootList: seq<Subscription>, before: seq<Turn>, turn: Turn, tools: Tools)
    ensures var after, list := before + [turn], SerialList(bootList, before);
            && HealthAfter(after) == (match turn.outcome
                                      case Committed(_, built) => Health(true, false, built.nodes, built.skipped)
                                      case _ => HealthAfter(before).(failing := true))
            && SerialList(bootList, after)
              == (if turn.outcome.Committed? then NextList(Update(turn.add), list) else list)
            && (!turn.outcome.Committed? ==>
                  SerialOutput(bootOutput, bootList, after, tools) == SerialOutput(bootOutput, bootList, before, tools))
            && (turn.outcome.Committed? ==>
                  var source, built := turn.outcome.source, turn.outcome.built;
                  tools.generate(source.base, NextList(Update(turn.add), list), source.world) == Some(built) ==>
                    SerialOutput(bootOutput, bootList, after, tools) == Whole(built.config))
  {
    assert (before + [turn])[..|before|] == before;
  }

  /** List, output and health are where the turns, taken one by one, bring them. */
  predicate InOrder(list: seq<Subscription>, output: File<Object>, health: Health, turns: seq<Turn>,
      bootList: seq<Subscription>, bootOutput: File<Object>, clean: bool, tools: Tools)
  {
    && health == HealthAfter(turns)
    && (clean ==> list == SerialList(bootList, turns) && output == SerialOutput(bootOutput, bootList, turns, tools))
  }

  lemma TurnKeepsOrder(list: seq<Subscription>, output: File<Object>, health: Health,
      list': seq<Subscription>, output': File<Object>, health': Health,
      before: seq<Turn>, turn: Turn, bootList: seq<Subscription>, bootOutput: File<Object>, clean: bool, tools: Tools)
    requires InOrder(list, output, health, before, bootList, bootOutput, clean, tools)
    requires health' == match turn.outcome
                        case Committed(_, built) => Health(true, false, built.nodes, built.skipped)
                        case _ => health.(failing := true)
    requires turn.outcome.Committed? ==>
               var source, built, next := turn.outcome.source, turn.outcome.built, NextList(Update(turn.add), list);
               && tools.generate(source.base, next, source.world) == Some(built)
               && list' == next && output' == Whole(built.config)
    requires !turn.outcome.Committed? && clean ==> list' == list && output' == output
    ensures InOrder(list', output', health', before + [turn], bootList, bootOutput, clean, tools)
  {
    TurnTaken(bootOutput, bootList, before, turn, tools);
  }

  class Manager {
    var state: File<seq<Subscription>>
    var stateTemp: File<seq<Subscription>>
    var output: File<Object>
    var candidate: File<Object>
    var health: Health
    const validate: Object -> bool

    ghost var history: seq<Turn>
    ghost const bootList: seq<Subscription>
    ghost const bootOutput: File<Object>
    ghost var clean: bool

    /** Files and health are where the turns so far, taken one by one, have brought them. */
    ghost predicate Valid()
      reads this
    {
      && stateTemp.Absent? && candidate.Absent?
      && InOrder(Decoded(state), output, health, history, bootList, bootOutput, clean, ManagerTools(validate))
    }

    constructor (state: File<seq<Subscription>>, output: File<Object>, validate: Object -> bool)
      ensures Valid() && clean && history == []
      ensures this.state == state && this.output == output && this.validate == validate
      ensures bootList == Decoded(state) && bootOutput == output
    {
      this.state, this.output, this.validate := state, output, validate;
      stateTemp, candidate, health := Absent, Absent, UNKNOWN;
      history, bootList, bootOutput, clean := [], Decoded(state), output, true;
    }

    /** `writeJSONAtomic`: the file changes at the rename or not at all, and no temporary file is left. */
    method WriteState(list: seq<Subscription>, fault: WriteFault) returns (ok: bool)
      modifies this`state, this`stateTemp
      ensures ok <==> fault.NoFault?
      ensures state == if ok then Whole(list) else old(state)
      ensures fault != AtCreate ==> stateTemp == Absent
      ensures fault == AtCreate ==> stateTemp == old(stateTemp)
    {
      if fault == AtCreate {
        return false;
      }
      stateTemp := Garbled;
      if fault == AtWrite {
        stateTemp := Absent;
        return false;
      }
      stateTemp := Whole(list);
      if fault == AtRename {
        stateTemp := Absent;
        return false;
      }
      state, stateTemp := stateTemp, Absent;
      return true;
    }

    /** From the checked candidate on: persist, publish, and undo the first when the second fails. */
    method Publish(next: seq<Subscription>, previous: seq<Subscription>, persist: bool, built: Built, faults: Faults)
      returns (r: Result<Built, UpdateError>)
      requires stateTemp.Absent? && candidate == Whole(built.config)
      modifies this`state, this`stateTemp, this`output, this`candidate
      ensures stateTemp.Absent?
      ensures r.Ok? <==> (persist ==> faults.persist.NoFault?) && !faults.publish
      ensures match r
              case Ok(b) =>
                b == built && output == Whole(built.config) && state == (if persist then Whole(next) else old(state))
              case Err(PersistFailed) =>
                output == old(output) && persist && state == old(state) && !faults.persist.NoFault?
              case Err(PublishFailed) =>
                && output == old(output) && faults.publish && (persist ==> faults.rollback.NoFault?)
                && state == (if persist then Whole(previous) else old(state))
              case Err(PublishAndRollbackFailed) =>
                && output == old(output) && persist && state == Whole(next)
                && faults.publish && !faults.rollback.NoFault?
              case Err(_) => false
    {
      if persist {
        var written := WriteState(next, faults.persist);
        if !written {
          return Err(PersistFailed);
        }
      }
      if faults.publish {
        if persist {
          var restored := WriteState(previous, faults.rollback);
          if !restored {
            return Err(PublishAndRollbackFailed);
          }
        }
        return Err(PublishFailed);
      }
      output, candidate := candidate, Absent;
      return Ok(built);
    }

    /** What decides whether an update goes through. */
    ghost predicate Succeeds(add: Option<Subscription>, base: File<Object>, w: World, faults: Faults)
      reads this
    {
      && !faults.readState && !state.Garbled? && !faults.readBase && base.Whole?
      && !faults.createCandidate && !faults.writeCandidate
      && (var built := Generate(base.value, NextList(Job.Update(add), Decoded(state)), w);
          built.Some? && validate(built.value.config))
      && (add.Some? ==> faults.persist.NoFault?) && !faults.publish
    }

    /** `buildState`: what is published is validated, and a failure leaves things as they were where it can. */
    method BuildState(next: seq<Subscription>, previous: seq<Subscription>, persist: bool,
        base: File<Object>, w: World, faults: Faults)
      returns (r: Result<Built, UpdateError>)
      requires stateTemp.Absent? && candidate.Absent?
      modifies this`state, this`stateTemp, this`output, this`candidate
      ensures stateTemp.Absent? && candidate.Absent?
      ensures r.Ok? ==>
                && base.Whole? && Generate(base.value, next, w) == Some(r.value) && validate(r.value.config)
                && output == Whole(r.value.config) && state == (if persist then Whole(next) else old(state))
      ensures r.Err? ==> output == old(output)
      ensures r.Err? && r.error != PublishAndRollbackFailed ==>
                state == old(state) || (persist && state == Whole(previous))
      ensures r == Err(PublishAndRollbackFailed) ==> persist && state == Whole(next) && !faults.rollback.NoFault?
      ensures r == Err(ReadBaseFailed) ==> faults.readBase || base.Absent?
      ensures r == Err(DecodeBaseFailed) ==> base.Garbled?
      ensures r.Err? && r.error.BuildFailed? ==> base.Whole? && Builder.Blames(r.error.error, base.value, next, w)
      ensures r == Err(CreateCandidateFailed) ==> faults.createCandidate
      ensures r == Err(WriteCandidateFailed) ==> faults.writeCandidate
      ensures r == Err(ValidationFailed) ==>
                base.Whole? && Generate(base.value, next, w).Some?
                  && !validate(Generate(base.value, next, w).value.config)
      ensures r == Err(PersistFailed) ==> persist && !faults.persist.NoFault?
      ensures r == Err(PublishFailed) ==> faults.publish && (persist ==> faults.rollback.NoFault?)
      ensures r == Err(PublishAndRollbackFailed) ==> faults.publish
      ensures r != Err(ReadStateFailed)
      ensures r.Ok? <==> && !faults.readBase && base.Whole? && !faults.createCandidate && !faults.writeCandidate
                         && (var built := Generate(base.value, next, w); built.Some? && validate(built.value.config))
                         && (persist ==> faults.persist.NoFault?) && !faults.publish
    {
      if faults.readBase || base.Absent? {
        return Err(ReadBaseFailed);
      }
      if !base.Whole? {
        return Err(DecodeBaseFailed);
      }
      var generated := Builder.Build(base.value, next, w);
      if generated.Err? {
        return Err(BuildFailed(generated.error));
      }
      var built := generated.value;
      if faults.createCandidate {
        return Err(CreateCandidateFailed);
      }
      candidate := Garbled;
      if faults.writeCandidate {
        candidate := Absent;
        return Err(WriteCandidateFailed);
      }
      candidate := Whole(built.config);
      if !validate(built.config) {
        candidate := Absent;
        return Err(ValidationFailed);
      }
      r := Publish(next, previous, persist, built, faults);
      candidate := Absent;
    }

    /** The deferred health record. */
    method Record(r: Result<Built, UpdateError>)
      modifies this`health
      ensures health == match r
                        case Ok(built) => Health(true, false, built.nodes, built.skipped)
                        case Err(_) => old(health).(failing := true)
    {
      if r.Err? {
        health := health.(failing := true);
      } else {
        health := health.(failing := false);
        health := health.(succeeded := true);
        health := health.(nodes := r.value.nodes);
        health := health.(skipped := r.value.skipped);
      }
    }

    /** The subscriptions kept when one of this name is added. */
    method Filtered(subs: seq<Subscription>, name: string) returns (filtered: seq<Subscription>)
      ensures filtered == Others(subs, name)
    {
      filtered := [];
      for i := 0 to |subs|
        invariant filtered == Others(subs[..i], name)
      {
        assert subs[..i + 1][..i] == subs[..i];
        if subs[i].name != name {
          filtered := filtered + [subs[i]];
        }
      }
      assert subs[..|subs|] == subs;
    }

    /** What each error says of the files, the feeds and the operations that failed. */
    ghost predicate Blamed(e: UpdateError, add: Option<Subscription>, base: File<Object>, w: World, faults: Faults)
      reads this
    {
      var next := NextList(Job.Update(add), Decoded(state));
      match e
      case ReadStateFailed => faults.readState || state.Garbled?
      case ReadBaseFailed => faults.readBase || base.Absent?
      case DecodeBaseFailed => base.Garbled?
      case BuildFailed(error) => base.Whole? && Builder.Blames(error, base.value, next, w)
      case CreateCandidateFailed => faults.createCandidate
      case WriteCandidateFailed => faults.writeCandidate
      case ValidationFailed =>
        base.Whole? && Generate(base.value, next, w).Some? && !validate(Generate(base.value, next, w).value.config)
      case PersistFailed => add.Some? && !faults.persist.NoFault?
      case PublishFailed => faults.publish && (add.Some? ==> faults.rollback.NoFault?)
      case PublishAndRollbackFailed => faults.publish && add.Some? && !faults.rollback.NoFault?
    }

    /** `update` between its locks and its deferred record. */
    method Attempt(add: Option<Subscription>, base: File<Object>, w: World, faults: Faults)
      returns (r: Result<Built, UpdateError>)
      requires stateTemp.Absent? && candidate.Absent?
      modifies this`state, this`stateTemp, this`output, this`candidate
      ensures stateTemp.Absent? && candidate.Absent?
      ensures r.Ok? <==> old(Succeeds(add, base, w, faults))
      ensures r.Err? ==> old(Blamed(r.error, add, base, w, faults))
      ensures add.None? ==> state == old(state)
      ensures r.Ok? ==>
                && base.Whole? && Generate(base.value, NextList(Job.Update(add), old(Decoded(state))), w)
                  == Some(r.value)
                && validate(r.value.config) && output == Whole(r.value.config)
                && Decoded(state) == NextList(Job.Update(add), old(Decoded(state)))
      ensures r.Err? ==> output == old(output)
      ensures r.Err? && r.error != PublishAndRollbackFailed ==> Decoded(state) == old(Decoded(state))
      ensures r == Err(PublishAndRollbackFailed) ==>
                add.Some? && !faults.rollback.NoFault?
                  && Decoded(state) == NextList(Job.Update(add), old(Decoded(state)))
    {
      if faults.readState || state.Garbled? {
        return Err(ReadStateFailed);
      }
      var previous := Decoded(state);
      var next := previous;
      if add.Some? {
        var filtered := Filtered(previous, add.value.name);
        next := filtered + [add.value];
      }
      r := BuildState(next, previous, add.Some?, base, w, faults);
    }

    /**
     One whole update: it is the next turn of the serial order, and only a failed rollback
     write breaks that order.
     */
    method Update(add: Option<Subscription>, base: File<Object>, w: World, faults: Faults)
      returns (r: Result<Built, UpdateError>)
      requires Valid()
      modifies this
      ensures Valid()
      ensures r.Ok? <==> old(Succeeds(add, base, w, faults))
      ensures r.Err? ==> old(Blamed(r.error, add, base, w, faults))
      ensures add.None? ==> state == old(state)
      ensures history == old(history) + [Turn(0, add, OutcomeOf(base, w, r))]
      ensures clean == (old(clean) && r != Err(PublishAndRollbackFailed))
      ensures r.Ok? ==>
                && base.Whole? && Generate(base.value, NextList(Job.Update(add), old(Decoded(state))), w)
                  == Some(r.value)
                && validate(r.value.config) && output == Whole(r.value.config)
                && Decoded(state) == NextList(Job.Update(add), old(Decoded(state)))
      ensures r.Err? ==> output == old(output)
      ensures r.Err? && r.error != PublishAndRollbackFailed ==> Decoded(state) == old(Decoded(state))
      ensures r == Err(PublishAndRollbackFailed) ==>
                add.Some? && !faults.rollback.NoFault?
                  && Decoded(state) == NextList(Job.Update(add), old(Decoded(state)))
    {
      r := Attempt(add, base, w, faults);
      Record(r);
      clean := clean && r != Err(PublishAndRollbackFailed);
      ghost var turn := Turn(0, add, OutcomeOf(base, w, r));
      TurnKeepsOrder(old(Decoded(state)), old(output), old(health), Decoded(state), output, health,
        history, turn, bootList, bootOutput, clean, ManagerTools(validate));
      history := history + [turn];
    }

    method ListNames(fails: bool) returns (r: Option<seq<string>>)
      requires Valid()
      ensures r.Some? <==> !fails && !state.Garbled?
      ensures r.Some? && clean ==> |r.value| == |SerialList(bootList, history)|
      ensures r.Some? && clean ==> forall i :: 0 <= i < |r.value| ==>
                r.value[i] == SerialList(bootList, history)[i].name
    {
      if fails || state.Garbled? {
        return None;
      }
      var list := Decoded(state);
      var names := [];
      for i := 0 to |list|
        invariant |names| == i && forall k :: 0 <= k < i ==> names[k] == list[k].name
      {
        names := names + [list[i].name];
      }
      return Some(names);
    }

    /** The health endpoint: ready exactly when the latest update succeeded. */
    method GetHealth() returns (ready: bool, nodes: nat, skipped: nat)
      requires Valid()
      ensures ready <==> history != [] && history[|history| - 1].outcome.Committed?
      ensures Counts(Health(true, !ready, nodes, skipped), LastSuccess(history))
    {
      HealthSaysLastTurn(history);
      ready := health.succeeded && !health.failing;
      nodes, skipped := health.nodes, health.skipped;
    }
  }
}
