/**
  The info-leak and personal-message threat machines. The two are the same
  machine with different timings and different economy calls, so one module
  serves both, parameterised by `Kind`.

  An occurrence moves idle -> grace -> danger -> idle (missed), or is
  censored from grace or danger and returns to idle after a blur. Four
  timers drive it (spawn, grace, danger, censor blur); each timer callback
  and each player action is one transition below. Every callback re-checks
  the state, because a callback may outlive the situation that armed it.
 */
module TimedThreat {
  import opened Common
  import opened Config
  import opened GameStore
  import Difficulty

  datatype Kind = InfoLeak | PersonalMessage

  datatype Phase = Idle | Grace | Danger | Censored

  datatype Machine = Machine(phase: Phase, spawn: Timer, grace: Timer, danger: Timer, censor: Timer)

  /** The machine after a transition, with the calls it made into the economy. */
  datatype Step = Step(machine: Machine, calls: seq<Call>)

  function Timing(t: Tuning, k: Kind): ThreatTiming {
    match k
    case InfoLeak => t.infoLeak
    case PersonalMessage => t.personalMsg
  }

  /** The one-time penalty for letting an occurrence reach danger. */
  function DangerPenalty(k: Kind): Call {
    match k
    case InfoLeak => PenalizeInfoLeakDanger
    case PersonalMessage => PenalizePersonalMsgDanger
  }

  /** The miss reported when danger runs out uncensored. */
  function Miss(k: Kind): Call {
    match k
    case InfoLeak => MissedInfoLeak
    case PersonalMessage => MissedPersonalMsg
  }

  /** Idle, with every handle `null`. */
  const Initial: Machine := Machine(Idle, NoTimer, NoTimer, NoTimer, NoTimer)

  /** The rendering flag: anything but idle is active, so an open occurrence or a running blur. */
  predicate IsActive(m: Machine)
    ensures IsActive(m) <==> Open(m) || m.phase == Censored
  {
    m.phase != Idle
  }

  /** An occurrence is live and can still be censored or missed. */
  predicate Open(m: Machine) {
    m.phase == Grace || m.phase == Danger
  }

  /** Un-jittered spawn delay: the base interval sped up by viewers (at most 2x), never below the minimum. */
  function SpawnInterval(t: Tuning, k: Kind, viewers: real): (i: real)
    requires t.Valid()
    ensures Timing(t, k).minInterval <= i <= Max(Timing(t, k).minInterval, 2.0 * Timing(t, k).baseInterval)
  {
    var tm := Timing(t, k);
    var speedup := Max(0.5, Difficulty.ViewerSpeedup(t, viewers));
    Difficulty.DivideByLarger(tm.baseInterval, 0.5, speedup);
    Max(tm.minInterval, tm.baseInterval / speedup)
  }

  /** The spawn delay: the interval times a jitter in [0.7, 1.3). */
  function SpawnDelay(t: Tuning, k: Kind, viewers: real, draw: real): (d: real)
    requires t.Valid() && IsDraw(draw)
    ensures 0.7 * SpawnInterval(t, k, viewers) <= d < 1.3 * SpawnInterval(t, k, viewers)
    ensures 0.7 * Timing(t, k).minInterval <= d
  {
    Jittered(SpawnInterval(t, k, viewers), 0.7, 1.3, draw)
  }

  /**
    `scheduleNext`: cancel the pending spawn, and re-arm it only while the
    session runs. Nothing else changes.
   */
  function ScheduleNext(m: Machine, t: Tuning, k: Kind, running: bool, viewers: real, draw: real): (r: Machine)
    requires t.Valid() && IsDraw(draw)
    ensures r.(spawn := m.spawn) == m
    ensures r.spawn.orphans == m.spawn.orphans
    ensures running <==> r.spawn.live.Some?
    ensures running ==> r.spawn.live.value == SpawnDelay(t, k, viewers, draw)
  {
    var cleared := m.spawn.Clear();
    if running then m.(spawn := cleared.Arm(SpawnDelay(t, k, viewers, draw)))
    else m.(spawn := cleared)
  }

  /** `startLeak` / `startMessage`: enter grace and arm the grace timer. */
  function StartOccurrence(m: Machine, t: Tuning, k: Kind): (r: Machine)
    requires t.Valid()
    ensures r.phase == Grace && r.grace.live == Some(Timing(t, k).gracePeriod)
    ensures r.grace.Queued() == m.grace.Queued() + 1
    ensures r.(phase := m.phase, grace := m.grace) == m
  {
    m.(phase := Grace, grace := m.grace.Arm(Timing(t, k).gracePeriod))
  }

  /**
    The spawn timer fires: start an occurrence only when the session runs
    and the machine is idle; otherwise only reschedule.
   */
  function OnSpawn(m: Machine, t: Tuning, k: Kind, running: bool, viewers: real, stale: bool, draw: real): (r: Step)
    requires t.Valid() && IsDraw(draw) && m.spawn.CanFire(stale)
    ensures r.calls == []
    ensures running && m.phase == Idle ==> r.machine.phase == Grace
    ensures !(running && m.phase == Idle) ==> r.machine.phase == m.phase
    ensures r.machine.danger == m.danger && r.machine.censor == m.censor
    ensures running && m.phase == Idle ==>
      && r.machine.grace.live == Some(Timing(t, k).gracePeriod)
      && r.machine.grace.Queued() == m.grace.Queued() + 1
      && r.machine.spawn == m.spawn.Fire(stale)
    ensures !(running && m.phase == Idle) ==>
      && r.machine.grace == m.grace
      && r.machine.spawn.orphans == m.spawn.Fire(stale).orphans
      && (running <==> r.machine.spawn.live.Some?)
      && (running ==> r.machine.spawn.live == Some(SpawnDelay(t, k, viewers, draw)))
  {
    var fired := m.(spawn := m.spawn.Fire(stale));
    if running && m.phase == Idle then Step(StartOccurrence(fired, t, k), [])
    else Step(ScheduleNext(fired, t, k, running, viewers, draw), [])
  }

  /**
    The grace timer fires. In grace: enter danger, penalise once, arm the
    danger timer. In any other state: nothing happens.
   */
  function OnGraceEnd(m: Machine, t: Tuning, k: Kind, stale: bool): (r: Step)
    requires t.Valid() && m.grace.CanFire(stale)
    ensures m.phase == Grace ==> r.machine.phase == Danger && r.calls == [DangerPenalty(k)]
    ensures m.phase == Grace ==> r.machine.danger.live == Some(Timing(t, k).dangerDuration)
    ensures m.phase == Grace ==>
      r.machine.grace == m.grace.Fire(stale) && r.machine.danger.Queued() == m.danger.Queued() + 1
    ensures m.phase != Grace ==> r == Step(m.(grace := m.grace.Fire(stale)), [])
    ensures r.machine.spawn == m.spawn && r.machine.censor == m.censor
  {
    var fired := m.(grace := m.grace.Fire(stale));
    if m.phase != Grace then Step(fired, [])
    else Step(fired.(phase := Danger, danger := m.danger.Arm(Timing(t, k).dangerDuration)), [DangerPenalty(k)])
  }

  /**
    The danger timer fires. In danger: report the miss once, go idle and
    reschedule. In any other state: nothing happens.
   */
  function OnDangerEnd(m: Machine, t: Tuning, k: Kind, running: bool, viewers: real, stale: bool, draw: real): (r: Step)
    requires t.Valid() && IsDraw(draw) && m.danger.CanFire(stale)
    ensures m.phase == Danger ==> r.machine.phase == Idle && r.calls == [Miss(k)]
    ensures m.phase == Danger ==> (running <==> r.machine.spawn.live.Some?)
    ensures m.phase == Danger ==>
      && r.machine.danger == m.danger.Fire(stale)
      && r.machine.spawn.orphans == m.spawn.orphans
      && (running ==> r.machine.spawn.live == Some(SpawnDelay(t, k, viewers, draw)))
    ensures m.phase != Danger ==> r == Step(m.(danger := m.danger.Fire(stale)), [])
    ensures r.machine.grace == m.grace && r.machine.censor == m.censor
  {
    var fired := m.(danger := m.danger.Fire(stale));
    if m.phase != Danger then Step(fired, [])
    else Step(ScheduleNext(fired.(phase := Idle), t, k, running, viewers, draw), [Miss(k)])
  }

  /**
    The censor-blur timer fires: go idle and reschedule. This callback does
    not check the state.
   */
  function OnBlurEnd(m: Machine, t: Tuning, k: Kind, running: bool, viewers: real, stale: bool, draw: real): (r: Step)
    requires t.Valid() && IsDraw(draw) && m.censor.CanFire(stale)
    ensures r.machine.phase == Idle && r.calls == []
    ensures running <==> r.machine.spawn.live.Some?
    ensures running ==> r.machine.spawn.live == Some(SpawnDelay(t, k, viewers, draw))
    ensures r.machine.spawn.orphans == m.spawn.orphans
    ensures r.machine.censor == m.censor.Fire(stale)
    ensures r.machine.grace == m.grace && r.machine.danger == m.danger
  {
    var fired := m.(censor := m.censor.Fire(stale));
    Step(ScheduleNext(fired.(phase := Idle), t, k, running, viewers, draw), [])
  }

  /**
    The player censors. Only from grace or danger: count one masked threat,
    cancel the grace and danger timers, enter censored and arm the blur.
    From idle or censored nothing changes.
   */
  function Censor(m: Machine, t: Tuning, k: Kind): (r: Step)
    requires t.Valid()
    ensures !Open(m) ==> r == Step(m, [])
    ensures Open(m) ==> r.calls == [ThreatMasked] && r.machine.phase == Censored
    ensures Open(m) ==> r.machine.grace.live.None? && r.machine.danger.live.None?
    ensures Open(m) ==> r.machine.censor.live == Some(Timing(t, k).censorBlurTime)
    ensures Open(m) ==> r.machine.censor.Queued() == m.censor.Queued() + 1
    ensures r.machine.spawn == m.spawn
    ensures r.machine.grace.orphans == m.grace.orphans && r.machine.danger.orphans == m.danger.orphans
  {
    if !Open(m) then Step(m, [])
    else
      Step(m.(phase := Censored, grace := m.grace.Clear(), danger := m.danger.Clear(),
              censor := m.censor.Arm(Timing(t, k).censorBlurTime)),
           [ThreatMasked])
  }

  /** `start`: force idle and schedule the first spawn. The other timers are left as they are. */
  function Start(m: Machine, t: Tuning, k: Kind, running: bool, viewers: real, draw: real): (r: Machine)
    requires t.Valid() && IsDraw(draw)
    ensures r.phase == Idle && !IsActive(r)
    ensures running <==> r.spawn.live.Some?
    ensures running ==> r.spawn.live == Some(SpawnDelay(t, k, viewers, draw))
    ensures r.spawn.orphans == m.spawn.orphans
    ensures r.grace == m.grace && r.danger == m.danger && r.censor == m.censor
  {
    ScheduleNext(m.(phase := Idle), t, k, running, viewers, draw)
  }

  /** `stop`: force idle and cancel all four handles. */
  function Stop(m: Machine): (r: Machine)
    ensures r.phase == Idle && !IsActive(r)
    ensures r.spawn.live.None? && r.grace.live.None? && r.danger.live.None? && r.censor.live.None?
    ensures r.spawn.orphans == m.spawn.orphans && r.grace.orphans == m.grace.orphans
    ensures r.danger.orphans == m.danger.orphans && r.censor.orphans == m.censor.orphans
  {
    Machine(Idle, m.spawn.Clear(), m.grace.Clear(), m.danger.Clear(), m.censor.Clear())
  }

  // ---------------------------------------------------------------------------
  // Runs

  /** Everything that can happen to a machine, with what the callback reads when it runs. */
  datatype Event =
    | SpawnFires(stale: bool, running: bool, viewers: real, draw: real)
    | GraceFires(stale: bool)
    | DangerFires(stale: bool, running: bool, viewers: real, draw: real)
    | BlurFires(stale: bool, running: bool, viewers: real, draw: real)
    | PlayerCensors
    | Started(running: bool, viewers: real, draw: real)
    | Stopped

  /** The event can happen now: a callback that fires is queued, and draws lie in [0, 1). */
  predicate Enabled(m: Machine, e: Event) {
    match e
    case SpawnFires(stale, _, _, draw) => m.spawn.CanFire(stale) && IsDraw(draw)
    case GraceFires(stale) => m.grace.CanFire(stale)
    case DangerFires(stale, _, _, draw) => m.danger.CanFire(stale) && IsDraw(draw)
    case BlurFires(stale, _, _, draw) => m.censor.CanFire(stale) && IsDraw(draw)
    case PlayerCensors => true
    case Started(_, _, draw) => IsDraw(draw)
    case Stopped => true
  }

  function Next(m: Machine, t: Tuning, k: Kind, e: Event): Step
    requires t.Valid() && Enabled(m, e)
  {
    match e
    case SpawnFires(stale, running, viewers, draw) => OnSpawn(m, t, k, running, viewers, stale, draw)
    case GraceFires(stale) => OnGraceEnd(m, t, k, stale)
    case DangerFires(stale, running, viewers, draw) => OnDangerEnd(m, t, k, running, viewers, stale, draw)
    case BlurFires(stale, running, viewers, draw) => OnBlurEnd(m, t, k, running, viewers, stale, draw)
    case PlayerCensors => Censor(m, t, k)
    case Started(running, viewers, draw) => Step(Start(m, t, k, running, viewers, draw), [])
    case Stopped => Step(Stop(m), [])
  }

  /** The events can happen one after another from `m`. */
  predicate ValidRun(m: Machine, t: Tuning, k: Kind, events: seq<Event>)
    requires t.Valid()
    decreases |events|
  {
    |events| == 0 || (Enabled(m, events[0]) && ValidRun(Next(m, t, k, events[0]).machine, t, k, events[1..]))
  }

  /** The machine after a run, with all calls made along the way in order. */
  function Run(m: Machine, t: Tuning, k: Kind, events: seq<Event>): Step
    requires t.Valid() && ValidRun(m, t, k, events)
    decreases |events|
  {
    if |events| == 0 then Step(m, [])
    else
      var s := Next(m, t, k, events[0]);
      var rest := Run(s.machine, t, k, events[1..]);
      Step(rest.machine, s.calls + rest.calls)
  }

  /** Number of occurrences resolved by the calls: censors plus misses. */
  function Resolutions(k: Kind, calls: seq<Call>): nat {
    if |calls| == 0 then 0
    else (if calls[0] == ThreatMasked || calls[0] == Miss(k) then 1 else 0) + Resolutions(k, calls[1..])
  }

  lemma {:induction false} ResolutionsAppend(k: Kind, a: seq<Call>, b: seq<Call>)
    ensures Resolutions(k, a + b) == Resolutions(k, a) + Resolutions(k, b)
    decreases |a|
  {
    if |a| == 0 {
      assert a + b == b;
    } else {
      assert (a + b)[1..] == a[1..] + b;
      ResolutionsAppend(k, a[1..], b);
    }
  }

  /** Number of occurrences the run starts: transitions from idle into grace. */
  function Starts(m: Machine, t: Tuning, k: Kind, events: seq<Event>): nat
    requires t.Valid() && ValidRun(m, t, k, events)
    decreases |events|
  {
    if |events| == 0 then 0
    else
      var next := Next(m, t, k, events[0]).machine;
      (if m.phase == Idle && next.phase == Grace then 1 else 0) + Starts(next, t, k, events[1..])
  }

  /** One transition resolves at most the occurrence that was open before it, and opens one only by starting it. */
  lemma StepResolvesAtMostOnce(m: Machine, t: Tuning, k: Kind, e: Event)
    requires t.Valid() && Enabled(m, e)
    ensures var s := Next(m, t, k, e);
      Resolutions(k, s.calls) + (if Open(s.machine) then 1 else 0)
      <= (if m.phase == Idle && s.machine.phase == Grace then 1 else 0) + (if Open(m) then 1 else 0)
  {
  }

  /**
    Censor and miss are mutually exclusive per occurrence: over any run, the
    censors and misses reported, plus the occurrence still open at the end,
    never exceed the occurrences started plus the one open at the beginning.
   */
  lemma {:induction false} AtMostOneResolutionPerOccurrence(m: Machine, t: Tuning, k: Kind, events: seq<Event>)
    requires t.Valid() && ValidRun(m, t, k, events)
    ensures var r := Run(m, t, k, events);
      Resolutions(k, r.calls) + (if Open(r.machine) then 1 else 0)
      <= Starts(m, t, k, events) + (if Open(m) then 1 else 0)
    decreases |events|
  {
    if |events| > 0 {
      var s := Next(m, t, k, events[0]);
      StepResolvesAtMostOnce(m, t, k, events[0]);
      AtMostOneResolutionPerOccurrence(s.machine, t, k, events[1..]);
      ResolutionsAppend(k, s.calls, Run(s.machine, t, k, events[1..]).calls);
    }
  }

  // ---------------------------------------------------------------------------
  // Tidy machines

  /**
    No orphaned callbacks, and the live handles are exactly the ones the
    phase calls for: a spawn only while idle, the grace timer in grace, the
    danger timer in danger, the blur while censored.
   */
  predicate Tidy(m: Machine) {
    && m.spawn.orphans == 0 && m.grace.orphans == 0 && m.danger.orphans == 0 && m.censor.orphans == 0
    && (m.spawn.live.Some? ==> m.phase == Idle)
    && (m.grace.live.Some? <==> m.phase == Grace)
    && (m.danger.live.Some? <==> m.phase == Danger)
    && (m.censor.live.Some? <==> m.phase == Censored)
  }

  lemma InitialIsTidy()
    ensures Tidy(Initial)
  {
  }

  /**
    Every transition keeps a machine tidy, except `start` on an active
    machine (it forces idle but leaves the grace, danger or blur timer
    armed).
   */
  lemma TidyPreserved(m: Machine, t: Tuning, k: Kind, e: Event)
    requires t.Valid() && Enabled(m, e) && Tidy(m)
    requires e.Started? ==> m.phase == Idle
    ensures Tidy(Next(m, t, k, e).machine)
  {
  }

  /** No event of the run is a `start`. */
  predicate NoRestart(events: seq<Event>) {
    forall i | 0 <= i < |events| :: !events[i].Started?
  }

  /**
    A tidy machine stays tidy over any run without `start`: no callback is
    ever orphaned, and every handle stays live exactly in its phase.
   */
  lemma {:induction false} TidyRunStaysTidy(m: Machine, t: Tuning, k: Kind, events: seq<Event>)
    requires t.Valid() && Tidy(m) && ValidRun(m, t, k, events) && NoRestart(events)
    ensures Tidy(Run(m, t, k, events).machine)
    decreases |events|
  {
    if |events| > 0 {
      TidyPreserved(m, t, k, events[0]);
      assert NoRestart(events[1..]) by {
        forall i | 0 <= i < |events[1..]| ensures !events[1..][i].Started? {
          assert events[1..][i] == events[i + 1];
        }
      }
      TidyRunStaysTidy(Next(m, t, k, events[0]).machine, t, k, events[1..]);
    }
  }

  /**
    In a tidy machine no callback is ever stale: each timer can fire only
    in the phase it was armed for, so the state checks never reject.
   */
  lemma TidyCallbacksAreCurrent(m: Machine)
    requires Tidy(m)
    ensures m.spawn.Pending() ==> m.phase == Idle
    ensures m.grace.Pending() ==> m.phase == Grace
    ensures m.danger.Pending() ==> m.phase == Danger
    ensures m.censor.Pending() ==> m.phase == Censored
  {
  }

  /** A tidy machine that is not idle always has the timer pending that will move it on. */
  lemma TidyMachinesProgress(m: Machine)
    requires Tidy(m)
    ensures m.phase == Grace ==> m.grace.Pending()
    ensures m.phase == Danger ==> m.danger.Pending()
    ensures m.phase == Censored ==> m.censor.Pending()
  {
  }

  /** Stopping a tidy machine leaves nothing queued: no later callback can run at all. */
  lemma StopCancelsEverything(m: Machine)
    requires Tidy(m)
    ensures var r := Stop(m);
      Tidy(r) && !r.spawn.Pending() && !r.grace.Pending() && !r.danger.Pending() && !r.censor.Pending()
  {
  }

  /**
    Without the tidiness assumption `stop` is not enough. From a censored
    machine whose blur is pending: `start`, a new occurrence, a second
    censor, then `stop`. The first blur was orphaned by the second censor
    and is still queued after `stop`; when it fires it re-arms the spawn
    timer of the stopped machine.
   */
  lemma OrphanedBlurOutlivesStop(t: Tuning, k: Kind)
    requires t.Valid()
    ensures var blurred := Machine(Censored, NoTimer, NoTimer, NoTimer, NoTimer.Arm(Timing(t, k).censorBlurTime));
      && Tidy(blurred)
      && var m1 := Start(blurred, t, k, true, 1000.0, 0.0);
      && m1.spawn.CanFire(false)
      && var m2 := OnSpawn(m1, t, k, true, 1000.0, false, 0.0).machine;
      && var m3 := Censor(m2, t, k).machine;
      && var m4 := Stop(m3);
      && m4.censor.CanFire(true)
      && var m5 := OnBlurEnd(m4, t, k, true, 1000.0, true, 0.0).machine;
      && m5.spawn.live.Some?
  {
  }
}
