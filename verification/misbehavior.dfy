/**
  The misbehavior threat machine. Its shape is the info-leak machine's, with
  three differences: it starts only through a periodic check gated on the
  emotional value and a random draw; while in danger a periodic drain ticks;
  and danger never expires on its own.
 */
module Misbehavior {
  import opened Common
  import opened Config
  import opened GameStore

  datatype Phase = Idle | Grace | Danger | Censored

  datatype Machine = Machine(phase: Phase, check: Timer, grace: Timer, drain: Timer, censor: Timer)

  datatype Step = Step(machine: Machine, calls: seq<Call>)

  /** Drain period in milliseconds. */
  const DrainIntervalMs: real := 200.0

  /** Seconds of drain reported per tick. */
  const DrainSeconds: real := DrainIntervalMs / 1000.0

  const Initial: Machine := Machine(Idle, NoTimer, NoTimer, NoTimer, NoTimer)

  predicate Open(m: Machine) {
    m.phase == Grace || m.phase == Danger
  }

  /** `scheduleCheck`: cancel the pending check, and re-arm it only while the session runs. */
  function ScheduleCheck(m: Machine, t: Tuning, running: bool): (r: Machine)
    requires t.Valid()
    ensures r.(check := m.check) == m
    ensures r.check.orphans == m.check.orphans
    ensures running <==> r.check.live.Some?
    ensures running ==> r.check.live.value == t.misbehaviorCheckInterval
  {
    var cleared := m.check.Clear();
    if running then m.(check := cleared.Arm(t.misbehaviorCheckInterval)) else m.(check := cleared)
  }

  /**
    Chance of triggering at emotional value `e` below the threshold `T`:
    `(T - e) / T`, larger the further `e` lies below `T`.
   */
  function TriggerChance(t: Tuning, e: real): (c: real)
    requires t.Valid()
    ensures e < t.misbehaviorEmotionThreshold ==> c > 0.0
    ensures 0.0 <= e ==> c <= 1.0
  {
    var threshold := t.misbehaviorEmotionThreshold;
    assert 0.0 <= e ==> threshold - e <= threshold;
    (threshold - e) / threshold
  }

  /** A lower emotional value never lowers the trigger chance. */
  lemma TriggerChanceAntitone(t: Tuning, e1: real, e2: real)
    requires t.Valid() && e1 <= e2
    ensures TriggerChance(t, e1) >= TriggerChance(t, e2)
  {
    var threshold := t.misbehaviorEmotionThreshold;
    QuotientMonotone(threshold - e2, threshold - e1, threshold);
  }

  lemma QuotientMonotone(a: real, b: real, c: real)
    requires a <= b && c > 0.0
    ensures a / c <= b / c
  {
    assert b / c - a / c == (b - a) / c;
  }

  /** The check decides to trigger: running, idle, below the threshold, and the draw within the chance. */
  predicate Triggers(t: Tuning, m: Machine, running: bool, emotion: real, draw: real)
    requires t.Valid()
  {
    && running && m.phase == Idle
    && emotion < t.misbehaviorEmotionThreshold
    && draw <= TriggerChance(t, emotion)
  }

  /** `trigger`: enter grace and arm the grace timer. */
  function Trigger(m: Machine, t: Tuning): (r: Machine)
    requires t.Valid()
    ensures r.phase == Grace && r.grace.live == Some(t.misbehaviorGracePeriod)
    ensures r.grace.Queued() == m.grace.Queued() + 1
    ensures r.(phase := m.phase, grace := m.grace) == m
  {
    m.(phase := Grace, grace := m.grace.Arm(t.misbehaviorGracePeriod))
  }

  /**
    The check timer fires. It triggers only when running, idle, below the
    emotion threshold and the draw does not exceed the chance; in every
    other case it only reschedules the check.
   */
  function OnCheck(m: Machine, t: Tuning, running: bool, emotion: real, stale: bool, draw: real): (r: Step)
    requires t.Valid() && m.check.CanFire(stale)
    ensures r.calls == []
    ensures Triggers(t, m, running, emotion, draw) ==>
      && r.machine.phase == Grace && r.machine.grace.live == Some(t.misbehaviorGracePeriod)
      && r.machine.grace.Queued() == m.grace.Queued() + 1
      && r.machine.check == m.check.Fire(stale)
    ensures !Triggers(t, m, running, emotion, draw) ==>
      && r.machine.phase == m.phase && r.machine.grace == m.grace
      && r.machine.check.orphans == m.check.Fire(stale).orphans
      && (running <==> r.machine.check.live.Some?)
      && (running ==> r.machine.check.live == Some(t.misbehaviorCheckInterval))
    ensures r.machine.drain == m.drain && r.machine.censor == m.censor
  {
    var fired := m.(check := m.check.Fire(stale));
    if !running || m.phase != Idle then Step(ScheduleCheck(fired, t, running), [])
    else if emotion >= t.misbehaviorEmotionThreshold then Step(ScheduleCheck(fired, t, running), [])
    else if draw > TriggerChance(t, emotion) then Step(ScheduleCheck(fired, t, running), [])
    else Step(Trigger(fired, t), [])
  }

  /** At or above the emotion threshold the check never triggers. */
  lemma NoTriggerAtOrAboveThreshold(m: Machine, t: Tuning, running: bool, emotion: real, stale: bool, draw: real)
    requires t.Valid() && m.check.CanFire(stale) && emotion >= t.misbehaviorEmotionThreshold
    ensures OnCheck(m, t, running, emotion, stale, draw).machine.phase == m.phase
  {
  }

  /**
    A lower emotional value never makes the check less likely to trigger:
    any draw that triggers at `e2` also triggers at every `e1 <= e2`.
   */
  lemma LowerEmotionTriggersNoLess(m: Machine, t: Tuning, running: bool, e1: real, e2: real, draw: real)
    requires t.Valid() && e1 <= e2 && Triggers(t, m, running, e2, draw)
    ensures Triggers(t, m, running, e1, draw)
  {
    TriggerChanceAntitone(t, e1, e2);
  }

  /** `startDrain`: replace any running drain by a fresh 200 ms interval. */
  function StartDrain(m: Machine): (r: Machine)
    ensures r.drain.live == Some(DrainIntervalMs) && r.drain.orphans == m.drain.orphans
    ensures r.(drain := m.drain) == m
  {
    m.(drain := m.drain.Clear().Arm(DrainIntervalMs))
  }

  /**
    The grace timer fires. In grace: enter danger, penalise once and start
    the drain. In any other state: nothing happens.
   */
  function OnGraceEnd(m: Machine, t: Tuning, stale: bool): (r: Step)
    requires t.Valid() && m.grace.CanFire(stale)
    ensures m.phase == Grace ==> r.machine.phase == Danger && r.calls == [PenalizeMisbehaviorDanger]
    ensures m.phase == Grace ==> r.machine.drain.live == Some(DrainIntervalMs)
    ensures m.phase == Grace ==>
      r.machine.grace == m.grace.Fire(stale) && r.machine.drain.orphans == m.drain.orphans
    ensures m.phase != Grace ==> r == Step(m.(grace := m.grace.Fire(stale)), [])
    ensures r.machine.check == m.check && r.machine.censor == m.censor
  {
    var fired := m.(grace := m.grace.Fire(stale));
    if m.phase != Grace then Step(fired, [])
    else Step(StartDrain(fired.(phase := Danger)), [PenalizeMisbehaviorDanger])
  }

  /**
    One drain tick. In danger while running: drain exactly one tick's worth
    and change nothing. Otherwise: cancel the drain and do nothing else.
    An interval callback stays queued, so firing does not consume it.
   */
  function OnDrainTick(m: Machine, running: bool): (r: Step)
    requires m.drain.live.Some?
    ensures m.phase == Danger && running ==> r == Step(m, [DrainMisbehaviorDanger(DrainSeconds)])
    ensures !(m.phase == Danger && running) ==> r == Step(m.(drain := m.drain.Clear()), [])
    ensures r.machine.phase == m.phase
  {
    if m.phase != Danger || !running then Step(m.(drain := m.drain.Clear()), [])
    else Step(m, [DrainMisbehaviorDanger(DrainSeconds)])
  }

  /**
    The player censors. Only from grace or danger: cancel the grace timer
    and the drain, count one masked threat, enter censored and arm the blur.
   */
  function Censor(m: Machine, t: Tuning): (r: Step)
    requires t.Valid()
    ensures !Open(m) ==> r == Step(m, [])
    ensures Open(m) ==> r.calls == [ThreatMasked] && r.machine.phase == Censored
    ensures Open(m) ==> r.machine.grace.live.None? && r.machine.drain.live.None?
    ensures Open(m) ==> r.machine.censor.live == Some(t.misbehaviorCensorBlurTime)
    ensures Open(m) ==> r.machine.censor.Queued() == m.censor.Queued() + 1
    ensures r.machine.check == m.check
    ensures r.machine.grace.orphans == m.grace.orphans && r.machine.drain.orphans == m.drain.orphans
  {
    if !Open(m) then Step(m, [])
    else
      Step(m.(phase := Censored, grace := m.grace.Clear(), drain := m.drain.Clear(),
              censor := m.censor.Arm(t.misbehaviorCensorBlurTime)),
           [ThreatMasked])
  }

  /** The blur timer fires: go idle and schedule the next check. */
  function OnBlurEnd(m: Machine, t: Tuning, running: bool, stale: bool): (r: Step)
    requires t.Valid() && m.censor.CanFire(stale)
    ensures r.machine.phase == Idle && r.calls == []
    ensures running <==> r.machine.check.live.Some?
    ensures running ==> r.machine.check.live == Some(t.misbehaviorCheckInterval)
    ensures r.machine.check.orphans == m.check.orphans
    ensures r.machine.censor == m.censor.Fire(stale)
    ensures r.machine.grace == m.grace && r.machine.drain == m.drain
  {
    Step(ScheduleCheck(m.(phase := Idle, censor := m.censor.Fire(stale)), t, running), [])
  }

  /** `start`: force idle and schedule the first check; other timers are left as they are. */
  function Start(m: Machine, t: Tuning, running: bool): (r: Machine)
    requires t.Valid()
    ensures r.phase == Idle && (running <==> r.check.live.Some?)
    ensures running ==> r.check.live == Some(t.misbehaviorCheckInterval)
    ensures r.check.orphans == m.check.orphans
    ensures r.grace == m.grace && r.drain == m.drain && r.censor == m.censor
  {
    ScheduleCheck(m.(phase := Idle), t, running)
  }

  /** `stop`: force idle and cancel the check, grace, drain and blur handles. */
  function Stop(m: Machine): (r: Machine)
    ensures r.phase == Idle
    ensures r.check.live.None? && r.grace.live.None? && r.drain.live.None? && r.censor.live.None?
    ensures r.check.orphans == m.check.orphans && r.grace.orphans == m.grace.orphans
    ensures r.drain.orphans == m.drain.orphans && r.censor.orphans == m.censor.orphans
  {
    Machine(Idle, m.check.Clear(), m.grace.Clear(), m.drain.Clear(), m.censor.Clear())
  }

  // ---------------------------------------------------------------------------
  // Runs

  datatype Event =
    | CheckFires(stale: bool, running: bool, emotion: real, draw: real)
    | GraceFires(stale: bool)
    | DrainTicks(running: bool)
    | BlurFires(stale: bool, running: bool)
    | PlayerCensors
    | Started(running: bool)
    | Stopped

  predicate Enabled(m: Machine, e: Event) {
    match e
    case CheckFires(stale, _, _, draw) => m.check.CanFire(stale) && IsDraw(draw)
    case GraceFires(stale) => m.grace.CanFire(stale)
    case DrainTicks(_) => m.drain.live.Some?
    case BlurFires(stale, _) => m.censor.CanFire(stale)
    case PlayerCensors => true
    case Started(_) => true
    case Stopped => true
  }

  function Next(m: Machine, t: Tuning, e: Event): Step
    requires t.Valid() && Enabled(m, e)
  {
    match e
    case CheckFires(stale, running, emotion, draw) => OnCheck(m, t, running, emotion, stale, draw)
    case GraceFires(stale) => OnGraceEnd(m, t, stale)
    case DrainTicks(running) => OnDrainTick(m, running)
    case BlurFires(stale, running) => OnBlurEnd(m, t, running, stale)
    case PlayerCensors => Censor(m, t)
    case Started(running) => Step(Start(m, t, running), [])
    case Stopped => Step(Stop(m), [])
  }

  /** The events can happen one after another from `m`. */
  predicate ValidRun(m: Machine, t: Tuning, events: seq<Event>)
    requires t.Valid()
    decreases |events|
  {
    |events| == 0 || (Enabled(m, events[0]) && ValidRun(Next(m, t, events[0]).machine, t, events[1..]))
  }

  /** The machine after a run, with all calls made along the way in order. */
  function Run(m: Machine, t: Tuning, events: seq<Event>): Step
    requires t.Valid() && ValidRun(m, t, events)
    decreases |events|
  {
    if |events| == 0 then Step(m, [])
    else
      var s := Next(m, t, events[0]);
      var rest := Run(s.machine, t, events[1..]);
      Step(rest.machine, s.calls + rest.calls)
  }

  /** Number of times one call occurs in a log. */
  function CountCall(calls: seq<Call>, c: Call): nat {
    if |calls| == 0 then 0
    else (if calls[0] == c then 1 else 0) + CountCall(calls[1..], c)
  }

  lemma {:induction false} CountCallAppend(a: seq<Call>, b: seq<Call>, c: Call)
    ensures CountCall(a + b, c) == CountCall(a, c) + CountCall(b, c)
    decreases |a|
  {
    if |a| == 0 {
      assert a + b == b;
    } else {
      assert (a + b)[1..] == a[1..] + b;
      CountCallAppend(a[1..], b, c);
    }
  }

  /** Number of misbehaviors the run triggers: transitions from idle into grace. */
  function Occurrences(m: Machine, t: Tuning, events: seq<Event>): nat
    requires t.Valid() && ValidRun(m, t, events)
    decreases |events|
  {
    if |events| == 0 then 0
    else
      var next := Next(m, t, events[0]).machine;
      (if m.phase == Idle && next.phase == Grace then 1 else 0) + Occurrences(next, t, events[1..])
  }

  function Indicator(b: bool): nat {
    if b then 1 else 0
  }

  /**
    One transition penalises only a misbehavior that was in grace, and
    censors only one that was in grace or danger.
   */
  lemma StepPenalisesAndCensorsAtMostOnce(m: Machine, t: Tuning, e: Event)
    requires t.Valid() && Enabled(m, e)
    ensures var s := Next(m, t, e);
      var started := Indicator(m.phase == Idle && s.machine.phase == Grace);
      && CountCall(s.calls, PenalizeMisbehaviorDanger) + Indicator(s.machine.phase == Grace)
         <= started + Indicator(m.phase == Grace)
      && CountCall(s.calls, ThreatMasked) + Indicator(Open(s.machine))
         <= started + Indicator(Open(m))
  {
    var s := Next(m, t, e);
    assert CountCall([], PenalizeMisbehaviorDanger) == 0 && CountCall([], ThreatMasked) == 0;
    assert CountCall([PenalizeMisbehaviorDanger], ThreatMasked) == 0;
    assert CountCall([ThreatMasked], PenalizeMisbehaviorDanger) == 0;
    assert CountCall([DrainMisbehaviorDanger(DrainSeconds)], PenalizeMisbehaviorDanger) == 0;
    assert CountCall([DrainMisbehaviorDanger(DrainSeconds)], ThreatMasked) == 0;
  }

  /**
    Over any run, each triggered misbehavior is penalised at most once and
    censored at most once: the penalties (plus one for a misbehavior still
    in grace) and the censors (plus one for a misbehavior still open)
    never exceed the misbehaviors triggered.
   */
  lemma {:induction false} AtMostOnePenaltyAndCensorPerOccurrence(m: Machine, t: Tuning, events: seq<Event>)
    requires t.Valid() && ValidRun(m, t, events)
    ensures var r := Run(m, t, events);
      && CountCall(r.calls, PenalizeMisbehaviorDanger) + Indicator(r.machine.phase == Grace)
         <= Occurrences(m, t, events) + Indicator(m.phase == Grace)
      && CountCall(r.calls, ThreatMasked) + Indicator(Open(r.machine))
         <= Occurrences(m, t, events) + Indicator(Open(m))
    decreases |events|
  {
    if |events| > 0 {
      var s := Next(m, t, events[0]);
      StepPenalisesAndCensorsAtMostOnce(m, t, events[0]);
      AtMostOnePenaltyAndCensorPerOccurrence(s.machine, t, events[1..]);
      var rest := Run(s.machine, t, events[1..]);
      CountCallAppend(s.calls, rest.calls, PenalizeMisbehaviorDanger);
      CountCallAppend(s.calls, rest.calls, ThreatMasked);
    }
  }

  /**
    Danger has no expiry: only the player's censor, `start`, `stop` or a
    blur callback takes the machine out of danger. Checks, grace callbacks
    and drain ticks leave it there.
   */
  lemma DangerHasNoExpiry(m: Machine, t: Tuning, e: Event)
    requires t.Valid() && Enabled(m, e) && m.phase == Danger
    requires e.CheckFires? || e.GraceFires? || e.DrainTicks?
    ensures Next(m, t, e).machine.phase == Danger
  {
  }

  /**
    No orphaned callbacks, and the live handles match the phase: a check
    only while idle, the grace timer exactly in grace, the drain only in
    danger, the blur exactly while censored.
   */
  predicate Tidy(m: Machine) {
    && m.check.orphans == 0 && m.grace.orphans == 0 && m.drain.orphans == 0 && m.censor.orphans == 0
    && (m.check.live.Some? ==> m.phase == Idle)
    && (m.grace.live.Some? <==> m.phase == Grace)
    && (m.drain.live.Some? ==> m.phase == Danger)
    && (m.censor.live.Some? <==> m.phase == Censored)
  }

  /** Every transition keeps a machine tidy, except `start` on an active machine. */
  lemma TidyPreserved(m: Machine, t: Tuning, e: Event)
    requires t.Valid() && Enabled(m, e) && Tidy(m)
    requires e.Started? ==> m.phase == Idle
    ensures Tidy(Next(m, t, e).machine)
  {
  }

  /**
    In a tidy machine only the player's censor or `stop` ends danger (no
    blur can be queued there), and every drain tick runs in danger.
   */
  lemma TidyDangerEndsOnlyByCensorOrStop(m: Machine, t: Tuning, e: Event)
    requires t.Valid() && Enabled(m, e) && Tidy(m) && m.phase == Danger
    requires Next(m, t, e).machine.phase != Danger
    ensures e.PlayerCensors? || e.Stopped? || e.Started?
  {
  }

  /** No event of the run is a `start`. */
  predicate NoRestart(events: seq<Event>) {
    forall i | 0 <= i < |events| :: !events[i].Started?
  }

  /** A tidy machine stays tidy over any run without `start`. */
  lemma {:induction false} TidyRunStaysTidy(m: Machine, t: Tuning, events: seq<Event>)
    requires t.Valid() && Tidy(m) && ValidRun(m, t, events) && NoRestart(events)
    ensures Tidy(Run(m, t, events).machine)
    decreases |events|
  {
    if |events| > 0 {
      TidyPreserved(m, t, events[0]);
      assert NoRestart(events[1..]) by {
        forall i | 0 <= i < |events[1..]| ensures !events[1..][i].Started? {
          assert events[1..][i] == events[i + 1];
        }
      }
      TidyRunStaysTidy(Next(m, t, events[0]).machine, t, events[1..]);
    }
  }

  /** Stopping a tidy machine leaves nothing queued. */
  lemma StopCancelsEverything(m: Machine)
    requires Tidy(m)
    ensures var r := Stop(m);
      Tidy(r) && !r.check.Pending() && !r.grace.Pending() && !r.drain.Pending() && !r.censor.Pending()
  {
  }
}
