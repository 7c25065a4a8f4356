/**
 The activation script, from the taking of its lock on: one action at a time moves the
 snapshots `active` and `previous` and recreates the router, while the manager goes on
 rewriting `config`. Any command may fail, be interrupted or be the last one that runs.
 */
module Deploy {
  import opened Wrappers
  import opened DeployTape

  datatype Place = Config | Active | Previous | Recovery

  /** Where the trap finds the snapshot it restores. */
  function BackupOf(action: Action): Place {
    if action == Rollback then Recovery else Previous
  }

  /** `Restored(late)`: late when `previous` had been replaced already. */
  datatype Outcome = Refused | Succeeded | NotCleaned | Restored(late: bool) | Unrestored | Died

  datatype Instant = Instant(config: Content, active: Content, previous: Option<Content>)

  class Host {
    const vetted: Content -> bool
    ghost const initial: set<Content>
    const tape: seq<Tick>
    var position: nat
    var config: Content
    var active: Content
    var previous: Option<Content>
    var recovery: Option<Content>
    var loaded: Option<Content>
    var checked: bool
    ghost var trace: seq<Instant>

    ghost predicate Good(c: Content) {
      c in initial || vetted(c)
    }

    ghost predicate AllGood(now: Instant) {
      Good(now.config) && Good(now.active) && (now.previous.Some? ==> Good(now.previous.value))
    }

    ghost function Now(): Instant
      reads this
    {
      Instant(config, active, previous)
    }

    /** At every instant so far, each file held initial contents or contents the manager had checked. */
    ghost predicate Valid()
      reads this
    {
      && trace != [] && trace[|trace| - 1] == Now()
      && (forall k :: 0 <= k < |trace| ==> AllGood(trace[k]))
      && (recovery.Some? ==> Good(recovery.value))
    }

    function Read(p: Place): Option<Content>
      reads this
    {
      match p
      case Config => Some(config)
      case Active => Some(active)
      case Previous => previous
      case Recovery => recovery
    }

    ghost predicate Held(c: Content, start: nat)
      reads this
    {
      exists k :: start <= k < |trace| && trace[k].config == c
    }

    constructor (config: Content, active: Content, previous: Option<Content>, loaded: Option<Content>,
        vetted: Content -> bool, tape: seq<Tick>)
      ensures Valid()
      ensures this.config == config && this.active == active && this.previous == previous && this.loaded == loaded
      ensures this.vetted == vetted && this.tape == tape && position == 0
      ensures initial == {config, active} + (if previous.Some? then {previous.value} else {})
    {
      this.config, this.active, this.previous, this.loaded := config, active, previous, loaded;
      this.vetted, this.tape, position := vetted, tape, 0;
      recovery, checked := None, false;
      initial := {config, active} + (if previous.Some? then {previous.value} else {});
      trace := [Instant(config, active, previous)];
    }

    ghost predicate Published(start: nat)
      reads this
    {
      exists k :: start <= k < position && PublishesAt(tape, vetted, k)
    }

    ghost predicate AnswersAt(k: nat) {
      k < |tape| && tape[k].ok && tape[k].answer
    }

    ghost predicate Answered(start: nat)
      reads this
    {
      exists k :: start <= k < position && AnswersAt(k)
    }

    ghost predicate Calm(start: nat)
      reads this
    {
      forall k :: start <= k < position && k < |tape| ==> tape[k].interrupt == Nothing
    }

    /** The time one command takes; a refresh publishes only what the manager has validated. */
    method Wait() returns (t: Tick)
      requires Valid()
      modifies this`position, this`config, this`trace
      ensures Valid() && old(trace) <= trace && |trace| > |old(trace)|
      ensures vetted(old(config)) ==> vetted(config)
      ensures t.ok && t.refresh.Some? && vetted(t.refresh.value) ==> config == t.refresh.value
      ensures t == TickAt(tape, old(position))
      ensures position == old(position) + 1
    {
      t := if position < |tape| then tape[position] else QUIET;
      position := position + 1;
      if t.refresh.Some? && vetted(t.refresh.value) {
        config := t.refresh.value;
      }
      trace := trace + [Now()];
    }

    /** `install` beside the target, then `mv`: the target is replaced whole or not at all. */
    method Snapshot(source: Place, target: Place) returns (st: Status, done: bool)
      requires Valid() && Read(source).Some?
      requires source != target && target != Config
      modifies this`position, this`config, this`trace, this`active, this`previous, this`recovery
      ensures Valid() && old(trace) <= trace
      ensures done <==> FineAt(tape, old(position)) && TickAt(tape, old(position) + 1).ok
      ensures st == StatusOf(TickAt(tape, if FineAt(tape, old(position)) then old(position) + 1 else old(position)))
      ensures position == if FineAt(tape, old(position)) then old(position) + 2 else old(position) + 1
      ensures vetted(old(config)) ==> vetted(config)
      ensures !done ==> Read(target) == old(Read(target))
      ensures done && source != Config ==> Read(target) == old(Read(source))
      ensures done && source == Config ==> Read(target).Some? && Held(Read(target).value, |old(trace)|)
      ensures done && source == Config && vetted(old(config)) ==> Read(target).Some? && vetted(Read(target).value)
      ensures target != Active ==> active == old(active)
      ensures target != Previous ==> previous == old(previous)
      ensures target != Recovery ==> recovery == old(recovery)
    {
      done := false;
      var t := Wait();
      if StatusOf(t) != Fine {
        return StatusOf(t), false;
      }
      var copy := Read(source).value;
      ghost var taken := |trace| - 1;
      assert Good(copy);
      t := Wait();
      if t.ok {
        if target == Active {
          active := copy;
        } else if target == Previous {
          previous := Some(copy);
        } else {
          recovery := Some(copy);
        }
        trace := trace + [Now()];
        done := true;
        assert source == Config ==> trace[taken].config == copy;
      }
      st := StatusOf(t);
    }

    /** A new container loads `active`; when this fails the old one may be gone, or the new one up. */
    method Recreate() returns (st: Status)
      requires Valid()
      modifies this`position, this`config, this`trace, this`loaded, this`checked
      ensures Valid() && old(trace) <= trace && position == old(position) + 1
      ensures st == Fine ==> loaded == Some(active)
      ensures !checked
      ensures st == StatusOf(TickAt(tape, old(position)))
    {
      checked := false;
      var t := Wait();
      if t.ok || t.replaced {
        loaded := Some(active);
      } else if t.answer {
        loaded := None;
      }
      st := StatusOf(t);
    }

    /** Asks for a healthy router that answers the smoke request, at most 30 times. */
    method RouterReady() returns (st: Status)
      requires Valid()
      modifies this`position, this`config, this`trace, this`checked
      ensures Valid() && old(trace) <= trace && position > old(position)
      ensures st == Fine ==> checked && Answered(old(position) + 1)
      ensures st != Fine ==> checked == old(checked)
      ensures position <= old(position) + 61
      ensures st == Fine <==> exists i: nat :: RouterReplies(tape, old(position), i)
      ensures RouterEnd(tape, old(position)) == if st == Fine then Some(position) else None
      ensures Calm(old(position)) ==> st in {Fine, Failed}
    {
      RouterExactly(tape, position);
      var t := Wait();
      if StatusOf(t) != Fine {
        return StatusOf(t);
      }
      if !t.answer {
        return Failed;
      }
      for i := 0 to ROUTER_ATTEMPTS
        invariant Valid() && old(trace) <= trace
        invariant position == old(position) + 1 + 2 * i && checked == old(checked)
        invariant RouterEnd(tape, old(position)) == AnsweredFrom(tape, position, ROUTER_ATTEMPTS - i, true)
      {
        t := Wait();
        if StatusOf(t) != Fine {
          return StatusOf(t);
        }
        if t.answer {
          assert AnswersAt(position - 1);
          checked := true;
          return Fine;
        }
        t := Wait();
        if StatusOf(t) in {Interrupted, Dead} {
          return StatusOf(t);
        }
      }
      return Failed;
    }

    // ---- the EXIT trap --------------------------------------------------------------

    /** The router runs the present snapshot, and has passed its check since it was last recreated. */
    predicate Verified()
      reads this
    {
      loaded == Some(active) && checked
    }

    /** Every step must work for the restoration to count; the traps are cleared, so an interrupt kills. */
    method Reactivate(backup: Place) returns (st: Status)
      requires Valid() && backup in {Previous, Recovery} && Read(backup).Some?
      modifies this
      ensures Valid() && old(trace) <= trace && position > old(position)
      ensures previous == old(previous) && recovery == old(recovery)
      ensures st == Fine ==> Verified()
      ensures BringEnd(tape, old(position)) == if st == Fine then Some(position) else None
      ensures Some(active) == if PutBack(tape, old(position)) then old(Read(backup)) else Some(old(active))
      ensures Calm(old(position)) ==> st in {Fine, Failed}
    {
      ghost var done;
      st, done := Snapshot(backup, Active);
      if st == Fine {
        st := Recreate();
      }
      if st == Fine {
        st := RouterReady();
      }
    }

    /** A trap begun at `start` gets the backup up, and is not cut while it cleans up after a rollback. */
    ghost predicate RestoresFrom(action: Action, start: nat) {
      var end := BringEnd(tape, start);
      end.Some? && (action == Rollback ==> !CutAt(tape, end.value))
    }

    ghost predicate CleansUp(start: nat) {
      BringEnd(tape, start).Some? && TickAt(tape, BringEnd(tape, start).value).ok
    }

    method Restore(action: Action, late: bool) returns (r: Outcome)
      requires Valid() && Read(BackupOf(action)).Some?
      modifies this
      ensures Valid() && old(trace) <= trace && position > old(position)
      ensures previous == old(previous)
      ensures r in {Restored(late), Unrestored, Died}
      ensures r == Restored(late) ==> Verified() && PutBack(tape, old(position))
      ensures Some(active) == if PutBack(tape, old(position)) then old(Read(BackupOf(action))) else Some(old(active))
      ensures recovery == old(recovery) || (r.Restored? && action == Rollback && recovery == None)
      ensures Calm(old(position)) ==> r != Died
      ensures r.Restored? <==> RestoresFrom(action, old(position))
      ensures r.Restored? && action == Rollback ==>
                recovery == if CleansUp(old(position)) then None else old(recovery)
    {
      var st := Reactivate(BackupOf(action));
      if st in {Interrupted, Dead} {
        return Died;
      }
      if st == Failed {
        return Unrestored;
      }
      if action == Rollback {
        var t := Wait();
        if StatusOf(t) in {Interrupted, Dead} {
          return Died;
        }
        recovery := if t.ok then None else recovery;
      }
      return Restored(late);
    }

    /** From a finished command in the guarded part: on, or by way of the trap, or nowhere. */
    method Guard(st: Status, action: Action, late: bool) returns (r: Option<Outcome>)
      requires Valid() && Read(BackupOf(action)).Some?
      modifies this
      ensures Valid() && old(trace) <= trace && position >= old(position)
      ensures previous == old(previous)
      ensures r.None? <==> st == Fine
      ensures st == Dead ==> r == Some(Died)
      ensures st in {Fine, Dead} ==>
                && position == old(position) && config == old(config) && active == old(active)
                && recovery == old(recovery) && loaded == old(loaded) && checked == old(checked)
      ensures r.Some? ==> r.value in {Restored(late), Unrestored, Died}
      ensures r == Some(Restored(late)) ==> Verified() && PutBack(tape, old(position))
      ensures st in {Interrupted, Failed} ==>
                Some(active) == if PutBack(tape, old(position)) then old(Read(BackupOf(action))) else Some(old(active))
      ensures recovery == old(recovery) || (r == Some(Restored(late)) && action == Rollback && recovery == None)
      ensures st != Dead && Calm(old(position)) ==> r != Some(Died)
    {
      match st
      case Fine => r := None;
      case Dead => r := Some(Died);
      case _ =>
        var outcome := Restore(action, late);
        r := Some(outcome);
    }

    // ---- scripts/deploy.sh, lines 101 to 113 -------------------------------------------------------------

    /** The guarded commands up to the check. */
    method Launch(source: Place) returns (st: Status)
      requires Valid() && source in {Config, Previous} && Read(source).Some?
      modifies this
      ensures Valid() && old(trace) <= trace && position >= old(position)
      ensures previous == old(previous) && recovery == old(recovery)
      ensures st == Fine ==> Verified()
      ensures st == Fine && source == Previous ==> Some(active) == old(previous)
      ensures st == Fine && source == Config ==> Held(active, |old(trace)|) && (old(vetted(config)) ==> vetted(active))
      ensures BringEnd(tape, old(position)) == if st == Fine then Some(position) else None
      ensures Calm(old(position)) ==> st in {Fine, Failed}
    {
      ghost var done;
      st, done := Snapshot(source, Active);
      if st == Fine {
        st := Recreate();
      }
      if st == Fine {
        st := RouterReady();
      }
    }

    /** The candidate becomes active, and the router proves itself on it. */
    method Bring(action: Action) returns (stopped: Option<Outcome>)
      requires Valid() && Read(BackupOf(action)).Some? && (action == Rollback ==> previous.Some?)
      modifies this
      ensures Valid() && old(trace) <= trace && previous == old(previous) && position >= old(position)
      ensures stopped.None? ==> Verified() && recovery == old(recovery)
      ensures stopped.None? && action == Rollback ==> Some(active) == old(previous)
      ensures stopped.None? && action != Rollback ==>
                Held(active, |old(trace)|) && (old(vetted(config)) ==> vetted(active))
      ensures stopped.Some? ==> stopped.value in {Restored(false), Unrestored, Died}
      ensures stopped == Some(Restored(false)) ==> active == old(Read(BackupOf(action))).value && Verified()
      ensures recovery == old(recovery) || (stopped == Some(Restored(false)) && action == Rollback && recovery == None)
      ensures BringEnd(tape, old(position)) == if stopped.None? then Some(position) else None
      ensures Calm(old(position)) ==> stopped != Some(Died)
    {
      var st := Launch(if action == Rollback then Previous else Config);
      stopped := Guard(st, action, false);
    }

    /** With the traps cleared, only the recovery file is left to remove. */
    method CleanUp() returns (r: Outcome)
      requires Valid()
      modifies this`position, this`config, this`trace, this`recovery
      ensures Valid() && old(trace) <= trace && position == old(position) + 1
      ensures r in {Succeeded, NotCleaned, Died}
      ensures r == Succeeded <==> FineAt(tape, old(position))
      ensures r == Died <==> CutAt(tape, old(position))
      ensures recovery == if r == Succeeded then None else old(recovery)
    {
      var t := Wait();
      if StatusOf(t) in {Interrupted, Dead} {
        return Died;
      }
      if !t.ok {
        return NotCleaned;
      }
      recovery := None;
      return Succeeded;
    }

    /** The rollback's own end: what was active becomes the previous snapshot. */
    method Finish() returns (r: Outcome)
      requires Valid() && recovery.Some? && Verified()
      modifies this
      ensures Valid() && old(trace) <= trace && position >= old(position)
      ensures r in {Succeeded, NotCleaned, Restored(false), Restored(true), Unrestored, Died}
      ensures r in {Succeeded, NotCleaned} ==> Verified() && active == old(active) && previous == old(recovery)
      ensures r == Succeeded <==>
                ThreeFine(tape, old(position))
      ensures r.Restored? ==> Verified() && Some(active) == old(recovery)
      ensures r.Restored? ==> previous == if r.late then old(recovery) else old(previous)
      ensures r.Restored? ==> (r.late <==> CutAfterSwap(tape, old(position)))
      ensures CutAfterSwap(tape, old(position)) && PutBack(tape, old(position) + 2) ==>
                Some(active) == old(recovery) && previous == old(recovery)
      ensures !(CutAfterSwap(tape, old(position)) && PutBack(tape, old(position) + 2)) ==>
                active == old(active) || previous == old(previous)
      ensures previous == old(previous) || previous == old(recovery)
      ensures recovery == old(recovery)
                || (recovery == None && (Some(active) == old(recovery) || previous == old(recovery)))
      ensures r == Unrestored ==> recovery == old(recovery)
      ensures Calm(old(position)) ==> r != Died && r != Restored(true)
    {
      var st, done := Snapshot(Recovery, Previous);
      var stopped := Guard(st, Rollback, done);
      if stopped.Some? {
        return stopped.value;
      }
      r := CleanUp();
    }

    /**
     Takes the candidate, and goes back to the backup when anything goes wrong. After the
     last guarded command the traps are cleared and only the recovery file is left to remove.
     */
    method Activate(action: Action) returns (r: Outcome)
      requires Valid() && Read(BackupOf(action)).Some? && (action == Rollback ==> previous.Some?)
      modifies this
      ensures Valid() && old(trace) <= trace && position >= old(position)
      ensures r != Refused
      ensures r in {Succeeded, NotCleaned} ==> Verified()
      ensures r in {Succeeded, NotCleaned} && action == Rollback ==>
                Some(active) == old(previous) && previous == old(recovery)
      ensures r in {Succeeded, NotCleaned} && action != Rollback ==>
                Held(active, |old(trace)|) && (old(vetted(config)) ==> vetted(active))
      ensures r.Restored? ==> Some(active) == old(Read(BackupOf(action))) && Verified()
      ensures r.Restored? ==> previous == if r.late then old(recovery) else old(previous)
      ensures action != Rollback ==> previous == old(previous) && recovery == old(recovery) && r != Restored(true)
      ensures recovery == old(recovery)
                || (recovery == None && (Some(active) == old(recovery) || previous == old(recovery)))
      ensures r == Unrestored ==> recovery == old(recovery)
      ensures Calm(old(position)) ==> r != Died && r != Restored(true)
      ensures r == Succeeded <==>
                && BringEnd(tape, old(position)).Some?
                && (action == Rollback ==> ThreeFine(tape, BringEnd(tape, old(position)).value))
      ensures action == Rollback ==>
                if BringEnd(tape, old(position)).Some? && CutAfterSwap(tape, BringEnd(tape, old(position)).value)
                  && PutBack(tape, BringEnd(tape, old(position)).value + 2)
                then Some(active) == old(recovery) && previous == old(recovery)
                else Some(active) == old(previous) || previous == old(previous)
      ensures action == Rollback && r.Restored? ==>
                (r.late <==>
                  BringEnd(tape, old(position)).Some? && CutAfterSwap(tape, BringEnd(tape, old(position)).value))
    {
      var stopped := Bring(action);
      if stopped.Some? {
        return stopped.value;
      }
      if action == Rollback {
        r := Finish();
      } else {
        r := Succeeded;
      }
    }

    // ---- scripts/deploy.sh, lines 54 to 90 -----------------------------------------------------------------

    /** Waits for the manager to answer over HTTP at all, at most 60 times. */
    method ManagerReady() returns (st: Status)
      requires Valid()
      modifies this`position, this`config, this`trace
      ensures Valid() && old(trace) <= trace && old(position) <= position <= old(position) + 120
      ensures st == Fine ==> Answered(old(position))
      ensures st == Fine <==> exists i: nat :: ManagerReplies(tape, old(position), i)
      ensures AnsweredFrom(tape, old(position), MANAGER_ATTEMPTS, false) == if st == Fine then Some(position) else None
      ensures Calm(old(position)) ==> st in {Fine, Failed}
    {
      ManagerExactly(tape, position);
      for i := 0 to MANAGER_ATTEMPTS
        invariant Valid() && old(trace) <= trace && position == old(position) + 2 * i
        invariant AnsweredFrom(tape, old(position), MANAGER_ATTEMPTS, false)
                    == AnsweredFrom(tape, position, MANAGER_ATTEMPTS - i, false)
      {
        var t := Wait();
        if StatusOf(t) in {Interrupted, Dead} {
          return StatusOf(t);
        }
        if t.ok && t.answer {
          assert AnswersAt(position - 1);
          return Fine;
        }
        t := Wait();
        if StatusOf(t) in {Interrupted, Dead} {
          return StatusOf(t);
        }
      }
      return Failed;
    }

    /** The request to refresh or add succeeds only by publishing a validated config. */
    method Generate() returns (st: Status)
      requires Valid()
      modifies this`position, this`config, this`trace
      ensures Valid() && old(trace) <= trace && position == old(position) + 1
      ensures st == Fine ==> vetted(config) && PublishesAt(tape, vetted, old(position))
      ensures st == Fine <==> FineAt(tape, old(position)) && PublishesAt(tape, vetted, old(position))
      ensures Calm(old(position)) ==> st in {Fine, Failed}
    {
      var t := Wait();
      st := StatusOf(t);
      if st == Fine && !(t.refresh.Some? && vetted(t.refresh.value)) {
        st := Failed;
      }
    }

    /** Has the manager generate. */
    method Request(action: Action, named: bool) returns (st: Status)
      requires Valid() && action != Rollback
      modifies this`position, this`config, this`trace
      ensures Valid() && old(trace) <= trace && position >= old(position)
      ensures st == Fine ==> vetted(config)
      ensures st == Fine ==> position > old(position) && PublishesAt(tape, vetted, position - 1)
      ensures RequestedEnd(tape, vetted, action, named, old(position)) == if st == Fine then Some(position) else None
      ensures Calm(old(position)) ==> st in {Fine, Failed}
    {
      if action == Deploy {
        var t := Wait();
        if StatusOf(t) != Fine {
          return StatusOf(t);
        }
      }
      st := ManagerReady();
      if st != Fine {
        return st;
      }
      if action == Add && !named {
        return Failed;
      }
      st := Generate();
    }

    /** Everything before the trap is set, for the actions that generate. */
    method Prepare(action: Action, named: bool) returns (st: Status)
      requires Valid() && action != Rollback
      modifies this
      ensures Valid() && old(trace) <= trace && position >= old(position)
      ensures active == old(active) && loaded == old(loaded) && checked == old(checked) && recovery == old(recovery)
      ensures st == Fine ==> previous == Some(active)
      ensures st == Fine ==> vetted(config) && Published(old(position))
      ensures st == Failed ==> previous == old(previous)
      ensures previous == old(previous) || previous == Some(active)
      ensures PreparedEnd(tape, vetted, action, named, old(position)) == if st == Fine then Some(position) else None
      ensures Calm(old(position)) ==> st in {Fine, Failed}
    {
      st := Request(action, named);
      if st != Fine {
        return st;
      }
      ghost var published := position - 1;
      ghost var done;
      st, done := Snapshot(Active, Previous);
      assert old(position) <= published < position && PublishesAt(tape, vetted, published);
    }

    /** Everything before the trap is set, for a rollback. */
    method SaveActive() returns (st: Status)
      requires Valid()
      modifies this
      ensures Valid() && old(trace) <= trace && position >= old(position)
      ensures active == old(active) && previous == old(previous) && loaded == old(loaded) && checked == old(checked)
      ensures st == Fine ==> previous.Some? && recovery == Some(active)
      ensures Calm(old(position)) ==> st in {Fine, Failed}
      ensures st == Fine <==> previous.Some? && ThreeFine(tape, old(position))
      ensures st == Fine ==> position == old(position) + 3
    {
      if previous.None? {
        return Failed;
      }
      var t := Wait();
      if StatusOf(t) != Fine {
        return StatusOf(t);
      }
      recovery := None;
      ghost var done;
      st, done := Snapshot(Active, Recovery);
    }

    /** The config that was active is still on disk. */
    ghost predicate Kept(was: Content)
      reads this
    {
      active == was || previous == Some(was) || recovery == Some(was)
    }

    ghost predicate Lost(was: Content)
      reads this
    {
      active != was && previous != Some(was)
    }

    /** A whole action that generates. */
    method Produce(action: Action, named: bool) returns (r: Outcome)
      requires Valid() && action != Rollback
      modifies this
      ensures Valid() && old(trace) <= trace
      ensures Kept(old(active)) && r != Restored(true)
      ensures r == Refused ==>
                active == old(active) && previous == old(previous) && loaded == old(loaded) && checked == old(checked)
      ensures r in {Succeeded, NotCleaned} ==> Verified() && previous == Some(old(active))
      ensures r in {Succeeded, NotCleaned} ==> Held(active, |old(trace)|) && vetted(active) && Published(old(position))
      ensures r.Restored? ==> active == old(active) && Verified() && previous == Some(old(active))
      ensures r == Unrestored ==> previous == Some(old(active))
      ensures Calm(old(position)) ==> r != Died
      ensures r == Succeeded <==> Generates(tape, vetted, action, named, old(position))
    {
      GeneratesExactly(tape, vetted, action, named, position);
      var st := Prepare(action, named);
      if st in {Interrupted, Dead} {
        return Died;
      }
      if st == Failed {
        return Refused;
      }
      r := Activate(action);
    }

    /** A whole rollback. */
    method RollBack() returns (r: Outcome)
      requires Valid()
      modifies this
      ensures Valid() && old(trace) <= trace
      ensures Kept(old(active))
      ensures r == Refused ==>
                active == old(active) && previous == old(previous) && loaded == old(loaded) && checked == old(checked)
      ensures r in {Succeeded, NotCleaned} ==>
                Verified() && previous == Some(old(active)) && Some(active) == old(previous)
      ensures r.Restored? ==> active == old(active) && Verified()
      ensures r.Restored? ==> previous == if r.late then Some(old(active)) else old(previous)
      ensures r.Restored? ==> (r.late <==> SwapCut(tape, old(position)))
      ensures r == Unrestored ==> recovery == Some(old(active))
      ensures Calm(old(position)) ==> r != Died && r != Restored(true)
      ensures r == Succeeded <==> old(previous).Some? && RollsBack(tape, old(position))
      ensures old(previous).Some? ==>
                (Lost(old(previous).value) <==>
                  LosesPrevious(tape, old(position)) && old(previous) != Some(old(active)))
      ensures old(previous).Some? && LosesPrevious(tape, old(position)) ==>
                active == old(active) && previous == Some(old(active)) && recovery in {None, Some(old(active))}
    {
      RollsBackExactly(tape, position);
      LosesExactly(tape, position);
      var st := SaveActive();
      if st in {Interrupted, Dead} {
        return Died;
      }
      if st == Failed {
        return Refused;
      }
      r := Activate(Rollback);
    }

    /**
     One whole action. A refusal changes nothing; success has loaded and checked what is
     active; a verified restoration brings back what was; and no outcome loses the config
     that was active. What a rollback was to bring back is lost only as `LosesPrevious` says,
     whatever the outcome.
     */
    method Run(action: Action, named: bool) returns (r: Outcome)
      requires Valid()
      modifies this
      ensures Valid() && old(trace) <= trace
      ensures Kept(old(active))
      ensures r == Refused ==>
                active == old(active) && previous == old(previous) && loaded == old(loaded) && checked == old(checked)
      ensures r in {Succeeded, NotCleaned} ==> Verified() && previous == Some(old(active))
      ensures r in {Succeeded, NotCleaned} && action == Rollback ==> Some(active) == old(previous)
      ensures r in {Succeeded, NotCleaned} && action != Rollback ==>
                Held(active, |old(trace)|) && vetted(active) && Published(old(position))
      ensures r.Restored? ==> active == old(active) && Verified()
      ensures r.Restored? ==> previous == if action == Rollback && !r.late then old(previous) else Some(old(active))
      ensures r == Restored(true) ==> action == Rollback
      ensures r == Unrestored ==> Read(BackupOf(action)) == Some(old(active))
      ensures Calm(old(position)) ==> r != Died && r != Restored(true)
      ensures action == Rollback ==> (r == Succeeded <==> old(previous).Some? && RollsBack(tape, old(position)))
      ensures action != Rollback ==>
                (r == Succeeded <==> Generates(tape, vetted, action, named, old(position)))
      ensures action == Rollback && old(previous).Some? ==>
                (Lost(old(previous).value) <==>
                  LosesPrevious(tape, old(position)) && old(previous) != Some(old(active)))
      ensures action == Rollback && old(previous).Some? && LosesPrevious(tape, old(position)) ==>
                active == old(active) && previous == Some(old(active)) && recovery in {None, Some(old(active))}
      ensures action == Rollback && r.Restored? ==>
                (r.late <==> SwapCut(tape, old(position)))
    {
      if action == Rollback {
        r := RollBack();
      } else {
        r := Produce(action, named);
      }
    }

    // ---- several actions ------------------------------------------------------------------

    /** Two rollbacks that succeed leave both snapshots as they were. */
    method RollBackTwice() returns (first: Outcome, second: Outcome)
      requires Valid()
      modifies this
      ensures Valid()
      ensures first == Succeeded && second == Succeeded ==>
                active == old(active) && previous == old(previous) && Verified()
    {
      first := Run(Rollback, false);
      second := Run(Rollback, false);
    }

    /** Any sequence of actions, whatever becomes of each: at no instant does a file hold anything unchecked. */
    method Session(actions: seq<Action>, named: bool) returns (outcomes: seq<Outcome>)
      requires Valid()
      modifies this
      ensures |outcomes| == |actions|
      ensures old(trace) <= trace && forall k :: 0 <= k < |trace| ==> AllGood(trace[k])
      ensures outcomes != [] && outcomes[|outcomes| - 1].Succeeded? ==> Verified()
    {
      outcomes := [];
      for i := 0 to |actions|
        invariant Valid() && old(trace) <= trace && |outcomes| == i
        invariant outcomes != [] && outcomes[|outcomes| - 1].Succeeded? ==> Verified()
      {
        var r := Run(actions[i], named);
        outcomes := outcomes + [r];
      }
    }
  }

  /** A rollback cut short by a signal after the swap loses the previous snapshot. */
  method SignalLosesPrevious(active: Content, previous: Content, refresh: Option<Content>) returns (h: Host)
    requires active != previous
    ensures h.active == active && h.previous == Some(active) && h.recovery != Some(previous)
  {
    var good := Tick(refresh, true, true, false, Nothing);
    var tape := seq(16, i => if i == 9 then good.(interrupt := Signal) else good);
    h := new Host(active, active, Some(previous), Some(active), (c: Content) => true, tape);
    assert SwapsVia(tape, 0, 0) && SwapCutVia(tape, 0, 0) && LosesPrevious(tape, 0);
    var r := h.Run(Rollback, false);
  }
}
