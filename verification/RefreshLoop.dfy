/**
 The background loop of `run`: build goroutines, the completion channel of capacity 1, and a
 timer with the semantics of Go 1.23, where `Stop` and `Reset` leave no stale tick behind.
 */
module RefreshLoop {

  datatype Timer = Idle | Armed(deadline: nat) | Fired

  /** Up to `Looping` the code runs once; the phases after it are the bodies of the `select`. */
  datatype Phase = Starting | Started | TimerMade | Looping | Rearming | Relaunching | Exited

  const CAPACITY := 1

  /** `building` and `sending` count goroutines before and at their send; `endedAt` is when a build last ended. */
  datatype State = State(
    phase: Phase, building: nat, sending: nat, buffered: nat, timer: Timer,
    now: nat, launches: nat, endedAt: nat)

  const INITIAL := State(Starting, 0, 0, 0, Idle, 0, 0, 0)

  datatype Event = Advance | Clock | BuildEnds | Send | Fire | TakeDone | TakeTick | Leave

  predicate Enabled(s: State, e: Event) {
    match e
    case Advance => s.phase !in {Looping, Exited}
    case Clock => true
    case BuildEnds => s.building > 0
    case Send => s.sending > 0 && s.buffered < CAPACITY
    case Fire => s.timer.Armed? && s.now >= s.timer.deadline
    case TakeDone => s.phase == Looping && s.buffered > 0
    case TakeTick => s.phase == Looping && s.timer == Fired
    case Leave => s.phase == Looping
  }

  /** The straight-line code between two receives. */
  function Proceed(s: State, interval: nat): State {
    match s.phase
    case Starting => s.(phase := Started, building := s.building + 1, launches := s.launches + 1)
    case Started => s.(phase := TimerMade, timer := Armed(s.now + interval))
    case TimerMade => s.(phase := Looping, timer := Idle)
    case Rearming => s.(phase := Looping, timer := Armed(s.now + interval))
    case Relaunching => s.(phase := Looping, building := s.building + 1, launches := s.launches + 1)
    case _ => s
  }

  function Step(s: State, e: Event, interval: nat): State {
    if !Enabled(s, e) then s else
    match e
    case Advance => Proceed(s, interval)
    case Clock => s.(now := s.now + 1)
    case BuildEnds => s.(building := s.building - 1, sending := s.sending + 1, endedAt := s.now)
    case Send => s.(sending := s.sending - 1, buffered := s.buffered + 1)
    case Fire => s.(timer := Fired)
    case TakeDone => s.(phase := Rearming, buffered := s.buffered - 1)
    case TakeTick => s.(phase := Relaunching, timer := Idle)
    case Leave => s.(phase := Exited, timer := Idle)
  }

  function Exec(events: seq<Event>, interval: nat): State {
    if events == [] then INITIAL else Step(Exec(events[..|events| - 1], interval), events[|events| - 1], interval)
  }

  /** Completions on their way to the loop. */
  function InFlight(s: State): nat {
    s.building + s.sending + s.buffered
  }

  function Tokens(s: State): nat {
    InFlight(s) + (if s.timer != Idle then 1 else 0) + (if s.phase in {Rearming, Relaunching} then 1 else 0)
  }

  predicate Running(s: State) {
    s.phase in {Looping, Rearming, Relaunching}
  }

  predicate Inv(s: State, interval: nat) {
    && (s.phase == Starting ==> InFlight(s) == 0 && s.timer == Idle)
    && (s.phase in {Started, TimerMade} ==> InFlight(s) == 1)
    && (s.phase == Started ==> s.timer == Idle)
    && (Running(s) ==> Tokens(s) == 1)
    && (s.phase == Exited ==> InFlight(s) <= 1)
    && s.endedAt <= s.now
    && (Running(s) && s.timer.Armed? ==> s.timer.deadline >= s.endedAt + interval)
    && (Running(s) && s.timer == Fired ==> s.now >= s.endedAt + interval)
    && (s.phase == Relaunching ==> s.now >= s.endedAt + interval)
  }

  lemma StepKeeps(s: State, e: Event, interval: nat)
    requires Inv(s, interval)
    ensures Inv(Step(s, e, interval), interval)
  {
  }

  lemma {:induction false} RunKeeps(events: seq<Event>, interval: nat)
    ensures Inv(Exec(events, interval), interval)
  {
    if events == [] {
    } else {
      RunKeeps(events[..|events| - 1], interval);
      StepKeeps(Exec(events[..|events| - 1], interval), events[|events| - 1], interval);
    }
  }

  /** What the waiting loop can be woken by. */
  function Wakers(s: State): seq<bool> {
    [s.building > 0, s.sending > 0, s.buffered > 0, s.timer.Armed?, s.timer == Fired]
  }

  predicate OnlyAt(flags: seq<bool>, i: nat) {
    i < |flags| && flags[i] && forall j :: 0 <= j < |flags| && flags[j] ==> j == i
  }

  /** While the loop waits, exactly one thing can wake it: a build, its completion, or the timer. */
  lemma OneToken(events: seq<Event>, interval: nat)
    requires Exec(events, interval).phase == Looping
    ensures exists i :: OnlyAt(Wakers(Exec(events, interval)), i)
  {
    RunKeeps(events, interval);
    var wakers := Wakers(Exec(events, interval));
    var i := if wakers[0] then 0 else if wakers[1] then 1 else if wakers[2] then 2 else if wakers[3] then 3 else 4;
    assert OnlyAt(wakers, i);
  }

  /** In every phase, the last one included, at most one build is in flight and its send finds room. */
  lemma SendNeverBlocks(events: seq<Event>, interval: nat)
    ensures var s := Exec(events, interval);
            s.building + s.sending <= 1 && (s.sending > 0 ==> Enabled(s, Send))
  {
    RunKeeps(events, interval);
  }

  /** A new build starts only when none is in flight, and a whole interval after the last one ended. */
  lemma BuildsKeepApart(events: seq<Event>, interval: nat, e: Event)
    requires Exec(events, interval).launches > 0
    requires Step(Exec(events, interval), e, interval).launches > Exec(events, interval).launches
    ensures var s := Exec(events, interval);
            InFlight(s) == 0 && s.now >= s.endedAt + interval
  {
    RunKeeps(events, interval);
    StartingLaunchesNothing(events, interval);
  }

  lemma {:induction false} StartingLaunchesNothing(events: seq<Event>, interval: nat)
    ensures Exec(events, interval).phase == Starting <==> Exec(events, interval).launches == 0
  {
    if events == [] {
    } else {
      StartingLaunchesNothing(events[..|events| - 1], interval);
    }
  }

  /** Something other than the clock and the way out can happen. */
  ghost predicate CanMove(s: State) {
    exists e :: e != Clock && e != Leave && Enabled(s, e)
  }

  /**
   The loop never falls asleep for good: until it leaves, a step other than the clock or
   leaving comes within an interval.
   */
  lemma NeverAsleep(events: seq<Event>, interval: nat)
    requires Running(Exec(events, interval))
    ensures var s := Exec(events, interval);
            CanMove(s.(now := s.now + interval))
  {
    RunKeeps(events, interval);
    DeadlineIsNear(events, interval);
    var s := Exec(events, interval);
    var later := s.(now := s.now + interval);
    if s.phase != Looping {
      assert Enabled(later, Advance);
    } else if s.building > 0 {
      assert Enabled(later, BuildEnds);
    } else if s.sending > 0 {
      assert Enabled(later, Send);
    } else if s.buffered > 0 {
      assert Enabled(later, TakeDone);
    } else if s.timer == Fired {
      assert Enabled(later, TakeTick);
    } else {
      assert Enabled(later, Fire);
    }
  }

  lemma {:induction false} DeadlineIsNear(events: seq<Event>, interval: nat)
    ensures var s := Exec(events, interval); s.timer.Armed? ==> s.timer.deadline <= s.now + interval
  {
    if events == [] {
    } else {
      DeadlineIsNear(events[..|events| - 1], interval);
    }
  }

  // ---- the next build -----------------------------------------------------------------

  /** How many steps of the loop and its helpers lie before the next launch. */
  function StepsToLaunch(s: State): nat {
    if s.phase == Relaunching then 1
    else if s.phase == Rearming then 4
    else if s.timer == Fired then 2
    else if s.timer.Armed? then 3
    else if s.buffered > 0 then 5
    else if s.sending > 0 then 6
    else 7
  }

  /** Everything but time and leaving brings the next build one step closer, down to its launch. */
  lemma EveryStepNearsLaunch(events: seq<Event>, interval: nat, e: Event)
    requires Running(Exec(events, interval)) && Enabled(Exec(events, interval), e) && e != Clock && e != Leave
    ensures var s, s' := Exec(events, interval), Step(Exec(events, interval), e, interval);
            && Running(s')
            && if StepsToLaunch(s) == 1 then s'.launches == s.launches + 1 && s'.building == 1
               else s'.launches == s.launches && StepsToLaunch(s') == StepsToLaunch(s) - 1
  {
    RunKeeps(events, interval);
  }
}
