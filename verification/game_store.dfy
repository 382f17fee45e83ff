/**
  The session flag (`menu` / `playing`) and the interface the rest of the
  core uses to talk to the game's economy.

  The economy operations themselves (sentiment, penalties, misses, drains,
  the masked-threat counter) are not part of this model: every call into
  them is recorded, in order, as a `Call` in a log. The meter values the
  core reads (viewers, emotional value, start time) are inputs, `Meters`.
 */
module GameStore {
  import opened Common

  datatype GameState = Menu | Playing

  datatype Game = Game(state: GameState)

  /** A fresh store sits in the menu. */
  const Initial: Game := Game(Menu)

  predicate IsRunning(g: Game) {
    g.state == Playing
  }

  /** Enter a session. */
  function Start(g: Game): (r: Game)
    ensures IsRunning(r)
  {
    Game(Playing)
  }

  /** Leave the session, back to the menu. */
  function Reset(g: Game): (r: Game)
    ensures !IsRunning(r)
  {
    Game(Menu)
  }

  lemma InitialIsNotRunning()
    ensures !IsRunning(Initial)
  {
  }

  /** `start` and `reset` are idempotent, and each one fixes the flag whatever it was. */
  lemma StartResetIdempotent(g: Game)
    ensures Start(Start(g)) == Start(g) && Reset(Reset(g)) == Reset(g)
    ensures Start(Reset(g)) == Start(g) && Reset(Start(g)) == Reset(g)
  {
  }

  /** The flag has exactly two values, and `IsRunning` tells them apart. */
  lemma TwoStates(g: Game)
    ensures g == Game(Menu) || g == Game(Playing)
    ensures IsRunning(g) <==> g == Game(Playing)
  {
    match g.state
    case Menu =>
    case Playing =>
  }

  /** Meter values read by the spawners; produced by the economy, not by this model. */
  datatype Meters = Meters(viewers: real, emotionalValue: real, startTime: Option<int>)

  /** One call from the core into the economy. */
  datatype Call =
    | ApplySentiment(sentiment: int)
    | MissedThreat
    | ThreatMasked
    | PenalizeInfoLeakDanger
    | MissedInfoLeak
    | PenalizePersonalMsgDanger
    | MissedPersonalMsg
    | PenalizeMisbehaviorDanger
    | DrainMisbehaviorDanger(seconds: real)

  /** `n` consecutive copies of one call. */
  function Repeat(c: Call, n: nat): (r: seq<Call>)
    ensures |r| == n
    ensures forall i | 0 <= i < n :: r[i] == c
  {
    if n == 0 then [] else [c] + Repeat(c, n - 1)
  }
}
