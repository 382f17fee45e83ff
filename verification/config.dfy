/**
  Tuning constants. The ones the configuration table defines are constants
  here; the ones the stores and threat machines read but no configuration
  table defines are fields of `Tuning`, supplied by the caller and required
  to be positive.
 */
module Config {

  /** Length cap of the chat log. */
  const ChatMaxMessages: nat := 15
  /** Base delay between chat threats, in milliseconds. */
  const BaseSpawnInterval: real := 5000.0
  /** Shortest un-jittered delay between chat threats, in milliseconds. */
  const MinSpawnInterval: real := 2000.0
  /** Viewer count at which difficulty is neutral. */
  const InitialViewers: real := 1000.0

  /** The five timings of one info-leak-shaped threat machine, in milliseconds. */
  datatype ThreatTiming = ThreatTiming(
    baseInterval: real,
    minInterval: real,
    gracePeriod: real,
    dangerDuration: real,
    censorBlurTime: real)
  {
    predicate Valid() {
      baseInterval > 0.0 && minInterval > 0.0 && gracePeriod > 0.0
      && dangerDuration > 0.0 && censorBlurTime > 0.0
    }
  }

  /** Constants referenced by the core but defined outside it. */
  datatype Tuning = Tuning(
    viewerDifficultyCap: real,
    viewerDifficultyScale: real,
    viewerDifficultyFloor: real,
    threatRatioCapTime: real,
    threatRatioIncreaseRate: real,
    infoLeak: ThreatTiming,
    personalMsg: ThreatTiming,
    misbehaviorEmotionThreshold: real,
    misbehaviorCheckInterval: real,
    misbehaviorGracePeriod: real,
    misbehaviorCensorBlurTime: real)
  {
    predicate Valid() {
      viewerDifficultyCap > 0.0 && viewerDifficultyScale > 0.0 && viewerDifficultyFloor > 0.0
      && threatRatioCapTime > 0.0 && threatRatioIncreaseRate > 0.0
      && infoLeak.Valid() && personalMsg.Valid()
      && misbehaviorEmotionThreshold > 0.0 && misbehaviorCheckInterval > 0.0
      && misbehaviorGracePeriod > 0.0 && misbehaviorCensorBlurTime > 0.0
    }
  }
}
