/**
  Runs of the chat feed: every spawner firing and player action on the
  feed, one after another, and what holds over any such run. Every threat
  that enters the feed is, at any moment, exactly one of: still on screen
  unmasked, masked by the player, reported missed once when it scrolled
  off, or dropped by `clearChat`. Ids stay unique and ordered throughout.
 */
module ChatRuns {
  import opened Common
  import opened Config
  import opened GameStore
  import opened Chat
  import Difficulty

  /** Everything that can happen to the feed, with what the operation reads when it runs. */
  datatype ChatEvent =
    | NormalFires(p: Picks, viewers: real, stale: bool, draw: real)
    | ThreatFires(p: Picks, meters: Meters, now: int, stale: bool, draw: real)
    | PlayerMasks(id: nat)
    | PlayerFlags(id: nat, pulse: Pulse)
    | ChatStarted(seeds: seq<Picks>, meters: Meters, now: int, normalDraw: real, threatDraw: real)
    | ChatStopped
    | ChatCleared

  /** The event's picks and draws lie in [0, 1), and the threat ratio at the clock it reads is non-zero. */
  predicate WellFormed(t: Tuning, e: ChatEvent)
    requires t.Valid()
  {
    match e
    case NormalFires(p, _, _, draw) => p.Valid() && IsDraw(draw)
    case ThreatFires(p, meters, now, _, draw) =>
      p.Valid() && IsDraw(draw) && Difficulty.RatioDefined(t, meters.startTime, now)
    case PlayerMasks(_) => true
    case PlayerFlags(_, _) => true
    case ChatStarted(seeds, meters, now, normalDraw, threatDraw) =>
      |seeds| == SeedCount && (forall i | 0 <= i < |seeds| :: seeds[i].Valid())
      && IsDraw(normalDraw) && IsDraw(threatDraw) && Difficulty.RatioDefined(t, meters.startTime, now)
    case ChatStopped => true
    case ChatCleared => true
  }

  /** A spawner firing needs a queued callback of its timer; every other event can always happen. */
  predicate Happens(c: ChatStore, e: ChatEvent) {
    match e
    case NormalFires(_, _, stale, _) => c.normalTimer.CanFire(stale)
    case ThreatFires(_, _, _, stale, _) => c.threatTimer.CanFire(stale)
    case _ => true
  }

  /**
    One event on the feed. A firing whose timer has no callback queued
    cannot happen and leaves the feed as it is, so that a run may list
    any events at all; every run the game can produce is among them.
   */
  function ChatNext(c: ChatStore, pools: Pools, t: Tuning, e: ChatEvent): ChatStep
    requires pools.Valid() && t.Valid() && WellFormed(t, e)
  {
    if !Happens(c, e) then ChatStep(c, [])
    else match e
    case NormalFires(p, viewers, stale, draw) => OnNormalTimer(c, pools, p, t, viewers, stale, draw)
    case ThreatFires(p, meters, now, stale, draw) => OnThreatTimer(c, pools, p, t, meters, now, stale, draw)
    case PlayerMasks(id) => ChatStep(MaskMessage(c, id).store, [])
    case PlayerFlags(id, pulse) => ChatStep(Flag(c, id, pulse), [])
    case ChatStarted(seeds, meters, now, normalDraw, threatDraw) =>
      StartChat(c, pools, seeds, t, meters, now, normalDraw, threatDraw)
    case ChatStopped => ChatStep(StopChat(c), [])
    case ChatCleared => ChatStep(ClearChat(c), [])
  }

  /** Every event of the run is well formed. */
  predicate AllWellFormed(t: Tuning, events: seq<ChatEvent>)
    requires t.Valid()
  {
    forall i | 0 <= i < |events| :: WellFormed(t, events[i])
  }

  lemma AllWellFormedTail(t: Tuning, events: seq<ChatEvent>)
    requires t.Valid() && |events| > 0 && AllWellFormed(t, events)
    ensures WellFormed(t, events[0]) && AllWellFormed(t, events[1..])
  {
    forall i | 0 <= i < |events[1..]| ensures WellFormed(t, events[1..][i]) {
      assert events[1..][i] == events[i + 1];
    }
  }

  /**
    The feed after a run, with every economy call made along the way in
    order, and how many threats the run spawned, the player masked and
    `clearChat` dropped unmasked.
   */
  datatype Tally = Tally(store: ChatStore, calls: seq<Call>, spawned: nat, masked: nat, dropped: nat)

  function ChatRun(c: ChatStore, pools: Pools, t: Tuning, events: seq<ChatEvent>): Tally
    requires pools.Valid() && t.Valid() && AllWellFormed(t, events)
    decreases |events|
  {
    if |events| == 0 then Tally(c, [], 0, 0, 0)
    else
      AllWellFormedTail(t, events);
      var e := events[0];
      var s := ChatNext(c, pools, t, e);
      var rest := ChatRun(s.store, pools, t, events[1..]);
      Tally(rest.store, s.calls + rest.calls, Spawned(c, e) + rest.spawned,
            MaskedThreat(c, e) + rest.masked, Dropped(c, e) + rest.dropped)
  }

  // ---------------------------------------------------------------------------
  // Counting

  /** Number of missed-threat reports in a call log. */
  function Misses(calls: seq<Call>): nat {
    if |calls| == 0 then 0
    else (if calls[0] == MissedThreat then 1 else 0) + Misses(calls[1..])
  }

  lemma {:induction false} MissesAppend(a: seq<Call>, b: seq<Call>)
    ensures Misses(a + b) == Misses(a) + Misses(b)
    decreases |a|
  {
    if |a| == 0 {
      assert a + b == b;
    } else {
      assert (a + b)[1..] == a[1..] + b;
      MissesAppend(a[1..], b);
    }
  }

  /** A log of missed-threat reports reports one miss per entry. */
  lemma {:induction false} MissesOfAllMisses(calls: seq<Call>)
    requires AllMisses(calls)
    ensures Misses(calls) == |calls|
    decreases |calls|
  {
    if |calls| > 0 {
      assert AllMisses(calls[1..]) by {
        forall i | 0 <= i < |calls[1..]| ensures calls[1..][i] == MissedThreat {
          assert calls[1..][i] == calls[i + 1];
        }
      }
      MissesOfAllMisses(calls[1..]);
    }
  }

  /** Two logs that agree on which messages are threats and which are masked hold as many unmasked threats. */
  lemma {:induction false} UnmaskedThreatsIgnoresOtherFields(a: seq<ChatMessage>, b: seq<ChatMessage>)
    requires |a| == |b|
    requires forall j | 0 <= j < |a| :: a[j].isThreat == b[j].isThreat && a[j].isMasked == b[j].isMasked
    ensures UnmaskedThreats(a) == UnmaskedThreats(b)
    decreases |a|
  {
    if |a| > 0 {
      UnmaskedThreatsIgnoresOtherFields(a[..|a| - 1], b[..|b| - 1]);
    }
  }

  /** A run of messages without threats holds no unmasked threat. */
  lemma {:induction false} NoThreatsNoneUnmasked(msgs: seq<ChatMessage>)
    requires forall j | 0 <= j < |msgs| :: !msgs[j].isThreat
    ensures UnmaskedThreats(msgs) == 0
    decreases |msgs|
  {
    if |msgs| > 0 {
      NoThreatsNoneUnmasked(msgs[..|msgs| - 1]);
    }
  }

  /** 1 when the event is the player masking a threat that was still unmasked. */
  function MaskedThreat(c: ChatStore, e: ChatEvent): nat {
    if e.PlayerMasks? && CanMask(c, e.id) && c.messages[FindIndex(c.messages, e.id).value].isThreat then 1 else 0
  }

  /** The unmasked threats `clearChat` drops without reporting them. */
  function Dropped(c: ChatStore, e: ChatEvent): nat {
    if e.ChatCleared? then UnmaskedThreats(c.messages) else 0
  }

  /** 1 when the event spawns a threat. */
  function Spawned(c: ChatStore, e: ChatEvent): nat {
    if e.ThreatFires? && Happens(c, e) then 1 else 0
  }

  /** Appending seeded messages, which are never threats, adds no unmasked threat. */
  lemma SeedingAddsNoThreat(before: seq<ChatMessage>, after: seq<ChatMessage>, firstId: nat)
    requires |before| <= |after| && after[..|before|] == before
    requires SeededAfter(after, |before|, firstId)
    ensures UnmaskedThreats(after) == UnmaskedThreats(before)
  {
    var n := |before|;
    var seeded := after[n..];
    assert after == before + seeded;
    forall j | 0 <= j < |seeded| ensures !seeded[j].isThreat {
      assert seeded[j] == after[n + j];
    }
    NoThreatsNoneUnmasked(seeded);
    UnmaskedThreatsAppend(before, seeded);
  }

  /** The accounting of one event `e` on `c` with outcome `s`, as `StepAccountsForThreats` states it. */
  predicate Balanced(c: ChatStore, e: ChatEvent, s: ChatStep) {
    Misses(s.calls) + UnmaskedThreats(s.store.messages) + MaskedThreat(c, e) + Dropped(c, e)
    == UnmaskedThreats(c.messages) + Spawned(c, e)
  }

  /** A normal message reports one sentiment change and one miss per threat it scrolls off. */
  lemma NormalTimerAccounts(c: ChatStore, pools: Pools, p: Picks, t: Tuning, viewers: real, stale: bool, draw: real)
    requires pools.Valid() && p.Valid() && t.Valid() && IsDraw(draw) && c.normalTimer.CanFire(stale)
    ensures var s := OnNormalTimer(c, pools, p, t, viewers, stale, draw);
      Misses(s.calls) + UnmaskedThreats(s.store.messages) == UnmaskedThreats(c.messages)
  {
    var s := OnNormalTimer(c, pools, p, t, viewers, stale, draw);
    var added := AddNormalMessage(c, pools, p);
    assert s.store.messages == added.store.messages;
    assert s.calls == [added.calls[0]] + added.calls[1..];
    MissesOfAllMisses(added.calls[1..]);
    MissesAppend([added.calls[0]], added.calls[1..]);
  }

  /** A threat message reports one miss per threat it scrolls off, and is itself unmasked. */
  lemma ThreatTimerAccounts(c: ChatStore, pools: Pools, p: Picks, t: Tuning, m: Meters, now: int, stale: bool, draw: real)
    requires pools.Valid() && p.Valid() && t.Valid() && IsDraw(draw) && c.threatTimer.CanFire(stale)
    requires Difficulty.RatioDefined(t, m.startTime, now)
    ensures var s := OnThreatTimer(c, pools, p, t, m, now, stale, draw);
      Misses(s.calls) + UnmaskedThreats(s.store.messages) == UnmaskedThreats(c.messages) + 1
  {
    var s := OnThreatTimer(c, pools, p, t, m, now, stale, draw);
    var added := AddThreatMessage(c, pools, p, now);
    assert s.store.messages == added.store.messages;
    MissesOfAllMisses(added.calls);
  }

  /** A normal-spawner firing that happens is exactly the normal timer's callback. */
  lemma NormalFiringIsCallback(c: ChatStore, pools: Pools, t: Tuning, e: ChatEvent)
    requires pools.Valid() && t.Valid() && WellFormed(t, e) && Happens(c, e) && e.NormalFires?
    ensures ChatNext(c, pools, t, e) == OnNormalTimer(c, pools, e.p, t, e.viewers, e.stale, e.draw)
  {
  }

  /** A threat-spawner firing that happens is exactly the threat timer's callback. */
  lemma ThreatFiringIsCallback(c: ChatStore, pools: Pools, t: Tuning, e: ChatEvent)
    requires pools.Valid() && t.Valid() && WellFormed(t, e) && Happens(c, e) && e.ThreatFires?
    ensures ChatNext(c, pools, t, e) == OnThreatTimer(c, pools, e.p, t, e.meters, e.now, e.stale, e.draw)
  {
  }

  /** A step that masks and drops nothing balances when its misses and what it leaves add up. */
  lemma BalancedByCounts(c: ChatStore, e: ChatEvent, s: ChatStep, spawned: nat)
    requires !e.PlayerMasks? && !e.ChatCleared? && Spawned(c, e) == spawned
    requires Misses(s.calls) + UnmaskedThreats(s.store.messages) == UnmaskedThreats(c.messages) + spawned
    ensures Balanced(c, e, s)
  {
  }

  /** `NormalTimerAccounts`, stated as the balance of a normal firing. */
  lemma NormalTimerBalanced(c: ChatStore, pools: Pools, t: Tuning, e: ChatEvent)
    requires pools.Valid() && t.Valid() && WellFormed(t, e) && Happens(c, e) && e.NormalFires?
    ensures Balanced(c, e, OnNormalTimer(c, pools, e.p, t, e.viewers, e.stale, e.draw))
  {
    NormalTimerAccounts(c, pools, e.p, t, e.viewers, e.stale, e.draw);
    BalancedByCounts(c, e, OnNormalTimer(c, pools, e.p, t, e.viewers, e.stale, e.draw), 0);
  }

  /** `ThreatTimerAccounts`, stated as the balance of a threat firing. */
  lemma ThreatTimerBalanced(c: ChatStore, pools: Pools, t: Tuning, e: ChatEvent)
    requires pools.Valid() && t.Valid() && WellFormed(t, e) && Happens(c, e) && e.ThreatFires?
    ensures Balanced(c, e, OnThreatTimer(c, pools, e.p, t, e.meters, e.now, e.stale, e.draw))
  {
    ThreatTimerAccounts(c, pools, e.p, t, e.meters, e.now, e.stale, e.draw);
    BalancedByCounts(c, e, OnThreatTimer(c, pools, e.p, t, e.meters, e.now, e.stale, e.draw), 1);
  }

  /** The normal-spawner step of `StepAccountsForThreats`. */
  lemma NormalFiringAccounts(c: ChatStore, pools: Pools, t: Tuning, e: ChatEvent)
    requires pools.Valid() && t.Valid() && WellFormed(t, e) && Happens(c, e) && e.NormalFires?
    ensures Balanced(c, e, ChatNext(c, pools, t, e))
  {
    NormalFiringIsCallback(c, pools, t, e);
    NormalTimerBalanced(c, pools, t, e);
  }

  /** The threat-spawner step of `StepAccountsForThreats`. */
  lemma ThreatFiringAccounts(c: ChatStore, pools: Pools, t: Tuning, e: ChatEvent)
    requires pools.Valid() && t.Valid() && WellFormed(t, e) && Happens(c, e) && e.ThreatFires?
    ensures Balanced(c, e, ChatNext(c, pools, t, e))
  {
    ThreatFiringIsCallback(c, pools, t, e);
    ThreatTimerBalanced(c, pools, t, e);
  }

  /** Pulsing a flag leaves the unmasked threats alone. */
  lemma FlagAccounts(c: ChatStore, pools: Pools, t: Tuning, e: ChatEvent)
    requires pools.Valid() && t.Valid() && e.PlayerFlags?
    ensures Balanced(c, e, ChatNext(c, pools, t, e))
  {
    UnmaskedThreatsIgnoresOtherFields(c.messages, Flag(c, e.id, e.pulse).messages);
  }

  /** Starting the chat seeds only normal messages. */
  lemma StartAccounts(c: ChatStore, pools: Pools, t: Tuning, e: ChatEvent)
    requires pools.Valid() && t.Valid() && WellFormed(t, e) && e.ChatStarted?
    ensures Balanced(c, e, ChatNext(c, pools, t, e))
  {
    SeedingAddsNoThreat(c.messages, ChatNext(c, pools, t, e).store.messages, c.nextId);
  }

  /**
    One event accounts for every threat: the misses it reports, the
    unmasked threats left, the threat it lets the player mask and the ones
    it drops add up to the unmasked threats before plus the one it spawns.
   */
  lemma StepAccountsForThreats(c: ChatStore, pools: Pools, t: Tuning, e: ChatEvent)
    requires pools.Valid() && t.Valid() && WellFormed(t, e)
    ensures var s := ChatNext(c, pools, t, e);
      Misses(s.calls) + UnmaskedThreats(s.store.messages) + MaskedThreat(c, e) + Dropped(c, e)
      == UnmaskedThreats(c.messages) + Spawned(c, e)
  {
    if !Happens(c, e) {
    } else if e.NormalFires? {
      NormalFiringAccounts(c, pools, t, e);
    } else if e.ThreatFires? {
      ThreatFiringAccounts(c, pools, t, e);
    } else if e.PlayerFlags? {
      FlagAccounts(c, pools, t, e);
    } else if e.ChatStarted? {
      StartAccounts(c, pools, t, e);
    }
    assert Balanced(c, e, ChatNext(c, pools, t, e));
  }

  /**
    Over any run, every threat is accounted for exactly once: the misses
    reported, the unmasked threats still on screen, the threats the player
    masked and the ones `clearChat` dropped add up to the unmasked threats
    at the start plus the threats spawned. In particular no threat is ever
    reported missed twice, and none scrolls off unreported.
   */
  lemma {:induction false} EveryThreatAccountedFor(c: ChatStore, pools: Pools, t: Tuning, events: seq<ChatEvent>)
    requires pools.Valid() && t.Valid() && AllWellFormed(t, events)
    ensures var r := ChatRun(c, pools, t, events);
      Misses(r.calls) + UnmaskedThreats(r.store.messages) + r.masked + r.dropped
      == UnmaskedThreats(c.messages) + r.spawned
    decreases |events|
  {
    if |events| > 0 {
      AllWellFormedTail(t, events);
      var s := ChatNext(c, pools, t, events[0]);
      StepAccountsForThreats(c, pools, t, events[0]);
      EveryThreatAccountedFor(s.store, pools, t, events[1..]);
      MissesAppend(s.calls, ChatRun(s.store, pools, t, events[1..]).calls);
    }
  }

  /** Every event keeps the ids strictly increasing and below the counter. */
  lemma StepKeepsIdsOrdered(c: ChatStore, pools: Pools, t: Tuning, e: ChatEvent)
    requires pools.Valid() && t.Valid() && WellFormed(t, e) && IdsOrdered(c)
    ensures IdsOrdered(ChatNext(c, pools, t, e).store)
  {
    if Happens(c, e) {
      match e {
        case NormalFires(p, viewers, stale, draw) =>
          var s := OnNormalTimer(c, pools, p, t, viewers, stale, draw);
          assert s.store.messages == AddNormalMessage(c, pools, p).store.messages;
        case ThreatFires(p, meters, now, stale, draw) =>
          var s := OnThreatTimer(c, pools, p, t, meters, now, stale, draw);
          assert s.store.messages == AddThreatMessage(c, pools, p, now).store.messages;
        case _ =>
      }
    }
  }

  /** Over any run, ids stay strictly increasing from oldest to newest and below the counter. */
  lemma {:induction false} IdsStayOrdered(c: ChatStore, pools: Pools, t: Tuning, events: seq<ChatEvent>)
    requires pools.Valid() && t.Valid() && AllWellFormed(t, events) && IdsOrdered(c)
    ensures IdsOrdered(ChatRun(c, pools, t, events).store)
    decreases |events|
  {
    if |events| > 0 {
      AllWellFormedTail(t, events);
      StepKeepsIdsOrdered(c, pools, t, events[0]);
      IdsStayOrdered(ChatNext(c, pools, t, events[0]).store, pools, t, events[1..]);
    }
  }

  /** No event of the run is a `startChat`. */
  predicate NoSeeding(events: seq<ChatEvent>) {
    forall i | 0 <= i < |events| :: !events[i].ChatStarted?
  }

  /** Every event but `startChat` keeps a log within the cap within it. */
  lemma StepKeepsCap(c: ChatStore, pools: Pools, t: Tuning, e: ChatEvent)
    requires pools.Valid() && t.Valid() && WellFormed(t, e)
    requires |c.messages| <= ChatMaxMessages && !e.ChatStarted?
    ensures |ChatNext(c, pools, t, e).store.messages| <= ChatMaxMessages
  {
    if Happens(c, e) {
      match e {
        case NormalFires(p, viewers, stale, draw) =>
          var s := OnNormalTimer(c, pools, p, t, viewers, stale, draw);
          assert s.store.messages == AddNormalMessage(c, pools, p).store.messages;
        case ThreatFires(p, meters, now, stale, draw) =>
          var s := OnThreatTimer(c, pools, p, t, meters, now, stale, draw);
          assert s.store.messages == AddThreatMessage(c, pools, p, now).store.messages;
        case _ =>
      }
    }
  }

  /** Over any run without `startChat`, a log within the cap stays within it. */
  lemma {:induction false} CapHolds(c: ChatStore, pools: Pools, t: Tuning, events: seq<ChatEvent>)
    requires pools.Valid() && t.Valid() && AllWellFormed(t, events)
    requires |c.messages| <= ChatMaxMessages && NoSeeding(events)
    ensures |ChatRun(c, pools, t, events).store.messages| <= ChatMaxMessages
    decreases |events|
  {
    if |events| > 0 {
      AllWellFormedTail(t, events);
      StepKeepsCap(c, pools, t, events[0]);
      assert NoSeeding(events[1..]) by {
        forall i | 0 <= i < |events[1..]| ensures !events[1..][i].ChatStarted? {
          assert events[1..][i] == events[i + 1];
        }
      }
      CapHolds(ChatNext(c, pools, t, events[0]).store, pools, t, events[1..]);
    }
  }
}
