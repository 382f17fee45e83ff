/**
  The game loop: the two entry points that start and stop a session by
  driving the session flag and the chat store together. The threat
  machines are started and stopped by their own callers, not here.
 */
module GameLoop {
  import opened Common
  import opened Config
  import opened GameStore
  import Chat
  import Difficulty

  datatype Session = Session(game: Game, chat: Chat.ChatStore)

  const Initial: Session := Session(GameStore.Initial, Chat.Initial)

  /**
    Everything `startChat` draws from: the seed picks, the meters, the clock
    and both delay draws. `Start` also needs a non-zero threat ratio at that clock.
   */
  datatype StartInputs = StartInputs(
    seeds: seq<Chat.Picks>, meters: Meters, now: int, normalDraw: real, threatDraw: real)
  {
    predicate Valid() {
      && |seeds| == Chat.SeedCount
      && (forall i | 0 <= i < |seeds| :: seeds[i].Valid())
      && IsDraw(normalDraw) && IsDraw(threatDraw)
    }
  }

  /**
    `start`: enter the playing state, then start the chat. The session
    runs, the old log is kept with eight fresh normal messages after it,
    and both spawners are armed.
   */
  function Start(s: Session, pools: Chat.Pools, t: Tuning, inp: StartInputs): (r: Session)
    requires pools.Valid() && t.Valid() && inp.Valid()
    requires Difficulty.RatioDefined(t, inp.meters.startTime, inp.now)
    ensures IsRunning(r.game)
    ensures |r.chat.messages| == |s.chat.messages| + Chat.SeedCount
    ensures r.chat.messages[..|s.chat.messages|] == s.chat.messages
    ensures Chat.SeededAfter(r.chat.messages, |s.chat.messages|, s.chat.nextId)
    ensures r.chat.messages[|s.chat.messages|..] == Chat.SeedMessages(pools, s.chat.nextId, inp.seeds)
    ensures r.chat.nextId == s.chat.nextId + Chat.SeedCount
    ensures r.chat.normalTimer.live == Some(Difficulty.NormalDelay(t, inp.meters.viewers, inp.normalDraw))
    ensures r.chat.threatTimer.live ==
      Some(Difficulty.ThreatDelay(t, inp.meters.viewers, inp.meters.startTime, inp.now, inp.threatDraw))
    ensures r.chat.normalTimer.Queued() == s.chat.normalTimer.Queued() + 1
    ensures r.chat.threatTimer.Queued() == s.chat.threatTimer.Queued() + 1
    ensures Chat.IdsOrdered(s.chat) ==> Chat.IdsOrdered(r.chat)
  {
    var chat := Chat.StartChat(s.chat, pools, inp.seeds, t, inp.meters, inp.now, inp.normalDraw, inp.threatDraw);
    Session(GameStore.Start(s.game), chat.store)
  }

  /**
    `stop`: stop the chat, then go back to the menu. Both spawners are
    cancelled; the log and the id counter stay as they were.
   */
  function Stop(s: Session): (r: Session)
    ensures !IsRunning(r.game)
    ensures r.chat.normalTimer.live.None? && r.chat.threatTimer.live.None?
    ensures r.chat.normalTimer.orphans == s.chat.normalTimer.orphans
    ensures r.chat.threatTimer.orphans == s.chat.threatTimer.orphans
    ensures r.chat.messages == s.chat.messages && r.chat.nextId == s.chat.nextId
  {
    Session(GameStore.Reset(s.game), Chat.StopChat(s.chat))
  }

  /**
    A second `start` without `stop` re-arms both spawners without cancelling
    the first chains, so their callbacks stay queued: one stop then leaves
    one callback of each spawner that no handle can cancel.
   */
  lemma DoubleStartLeavesChainsAfterStop(pools: Chat.Pools, t: Tuning, a: StartInputs, b: StartInputs)
    requires pools.Valid() && t.Valid() && a.Valid() && b.Valid()
    requires Difficulty.RatioDefined(t, a.meters.startTime, a.now)
    requires Difficulty.RatioDefined(t, b.meters.startTime, b.now)
    ensures var r := Stop(Start(Start(Initial, pools, t, a), pools, t, b));
      && r.chat.normalTimer == Timer(None, 1) && r.chat.threatTimer == Timer(None, 1)
  {
  }

  /** Stopping twice is stopping once. */
  lemma StopIdempotent(s: Session)
    ensures Stop(Stop(s)) == Stop(s)
  {
    var once := Stop(s);
    assert once.chat.normalTimer.Clear() == once.chat.normalTimer;
    assert once.chat.threatTimer.Clear() == once.chat.threatTimer;
  }

  /**
    A restart does not clear the chat: stopping and starting again with a
    full log leaves the eight seed messages on top of it, past the cap
    that only message spawning enforces.
   */
  lemma RestartOverfillsLog(s: Session, pools: Chat.Pools, t: Tuning, inp: StartInputs)
    requires pools.Valid() && t.Valid() && inp.Valid()
    requires Difficulty.RatioDefined(t, inp.meters.startTime, inp.now)
    requires |s.chat.messages| == ChatMaxMessages
    ensures var r := Start(Stop(s), pools, t, inp);
      |r.chat.messages| == ChatMaxMessages + Chat.SeedCount > ChatMaxMessages
      && r.chat.messages[..ChatMaxMessages] == s.chat.messages
  {
  }

  /** The first start from a fresh session yields exactly the eight seed messages with ids 0 to 7. */
  lemma FirstStartSeeds(pools: Chat.Pools, t: Tuning, inp: StartInputs)
    requires pools.Valid() && t.Valid() && inp.Valid()
    requires Difficulty.RatioDefined(t, inp.meters.startTime, inp.now)
    ensures var r := Start(Initial, pools, t, inp);
      |r.chat.messages| == Chat.SeedCount && r.chat.nextId == Chat.SeedCount
      && (forall i | 0 <= i < Chat.SeedCount :: r.chat.messages[i].id == i && !r.chat.messages[i].isThreat)
      && Chat.IdsOrdered(r.chat)
  {
    var r := Start(Initial, pools, t, inp);
    assert Chat.IdsOrdered(Chat.Initial);
    assert Chat.SeededAfter(r.chat.messages, 0, 0);
  }
}
