/**
  Difficulty arithmetic of the chat spawners: the viewer-driven speed
  multiplier, the time-driven threat-ratio multiplier and the two spawn
  delays built from them. All times are milliseconds except the elapsed
  session time, which the ratio measures in seconds.
 */
module Difficulty {
  import opened Common
  import opened Config

  /**
    `1 + (min(viewers, cap) - INITIAL_VIEWERS) / scale`: the speed-up the
    chat spawner and the info-leak-shaped spawners share, before either
    applies its own floor.
   */
  function ViewerSpeedup(t: Tuning, viewers: real): real
    requires t.Valid()
  {
    1.0 + (Min(viewers, t.viewerDifficultyCap) - InitialViewers) / t.viewerDifficultyScale
  }

  /** Chat speed: the viewer speed-up, never below the configured floor. */
  function ChatSpeedMultiplier(t: Tuning, viewers: real): (m: real)
    requires t.Valid()
    ensures m >= t.viewerDifficultyFloor > 0.0
    ensures m >= ViewerSpeedup(t, viewers)
  {
    Max(t.viewerDifficultyFloor, ViewerSpeedup(t, viewers))
  }

  /** More viewers never slow the chat down. */
  lemma ChatSpeedMonotone(t: Tuning, v1: real, v2: real)
    requires t.Valid() && v1 <= v2
    ensures ChatSpeedMultiplier(t, v1) <= ChatSpeedMultiplier(t, v2)
  {
    var a := Min(v1, t.viewerDifficultyCap) - InitialViewers;
    var b := Min(v2, t.viewerDifficultyCap) - InitialViewers;
    DivideMonotone(a, b, t.viewerDifficultyScale);
  }

  lemma DivideMonotone(a: real, b: real, c: real)
    requires a <= b && c > 0.0
    ensures a / c <= b / c
  {
  }

  /** Above the viewer cap the chat speed no longer changes. */
  lemma ChatSpeedSaturates(t: Tuning, viewers: real)
    requires t.Valid() && viewers >= t.viewerDifficultyCap
    ensures ChatSpeedMultiplier(t, viewers) == ChatSpeedMultiplier(t, t.viewerDifficultyCap)
  {
  }

  /** A start time counts as set when it is present and non-zero (a falsy zero reads as unset). */
  predicate StartTimeSet(startTime: Option<int>) {
    startTime.Some? && startTime.value != 0
  }

  /** The wall clock has not gone back past the session start. */
  predicate ClockSane(startTime: Option<int>, now: int) {
    StartTimeSet(startTime) ==> now >= startTime.value
  }

  /** The largest value the threat ratio can reach. */
  function MaxThreatRatio(t: Tuning): real
    requires t.Valid()
  {
    1.0 + (t.threatRatioCapTime / 60.0) * t.threatRatioIncreaseRate
  }

  /**
    Threat-ratio multiplier: 1 without a start time; otherwise it grows
    linearly with the elapsed seconds until the cap time, then freezes.
   */
  function ThreatRatioMultiplier(t: Tuning, startTime: Option<int>, now: int): (r: real)
    requires t.Valid()
    ensures !StartTimeSet(startTime) ==> r == 1.0
    ensures r <= MaxThreatRatio(t)
    ensures ClockSane(startTime, now) ==> 1.0 <= r
  {
    if !StartTimeSet(startTime) then 1.0
    else
      var elapsed := (now - startTime.value) as real / 1000.0;
      var capped := Min(elapsed, t.threatRatioCapTime);
      ScaleMonotone(capped, t.threatRatioCapTime, t.threatRatioIncreaseRate);
      assert ClockSane(startTime, now) ==> 0.0 <= (capped / 60.0) * t.threatRatioIncreaseRate by {
        if ClockSane(startTime, now) {
          ScaleMonotone(0.0, capped, t.threatRatioIncreaseRate);
        }
      }
      1.0 + (capped / 60.0) * t.threatRatioIncreaseRate
  }

  lemma ScaleMonotone(a: real, b: real, rate: real)
    requires a <= b && rate > 0.0
    ensures (a / 60.0) * rate <= (b / 60.0) * rate
  {
    assert a / 60.0 <= b / 60.0;
  }

  /** Once the cap time has passed, the threat ratio stays at its maximum. */
  lemma ThreatRatioFreezes(t: Tuning, startTime: Option<int>, now: int)
    requires t.Valid() && StartTimeSet(startTime)
    requires (now - startTime.value) as real / 1000.0 >= t.threatRatioCapTime
    ensures ThreatRatioMultiplier(t, startTime, now) == MaxThreatRatio(t)
  {
  }

  /** Delay before the next normal chat message: 1.5 to 2.5 seconds, divided by the chat speed. */
  function NormalDelay(t: Tuning, viewers: real, draw: real): (d: real)
    requires t.Valid() && IsDraw(draw)
    ensures 1500.0 / ChatSpeedMultiplier(t, viewers) <= d < 2500.0 / ChatSpeedMultiplier(t, viewers)
    ensures 0.0 < d < 2500.0 / t.viewerDifficultyFloor
  {
    var speed := ChatSpeedMultiplier(t, viewers);
    var range := RandomRange(1500.0, 2500.0, draw);
    QuotientBelow(range, 2500.0, speed, t.viewerDifficultyFloor);
    QuotientBetween(range, speed, 1500.0, 2500.0);
    range / speed
  }

  /** More viewers never lengthen the normal delay for the same draw. */
  lemma NormalDelayAntitone(t: Tuning, v1: real, v2: real, draw: real)
    requires t.Valid() && IsDraw(draw) && v1 <= v2
    ensures NormalDelay(t, v2, draw) <= NormalDelay(t, v1, draw)
  {
    ChatSpeedMonotone(t, v1, v2);
    var range := RandomRange(1500.0, 2500.0, draw);
    DivideByLarger(range, ChatSpeedMultiplier(t, v1), ChatSpeedMultiplier(t, v2));
  }

  lemma DivideByLarger(x: real, a: real, b: real)
    requires x > 0.0 && 0.0 < a <= b
    ensures x / b <= x / a
  {
    var p := x / a;
    var q := x / b;
    assert p * a == x == q * b;
    assert q * a <= q * b;
  }

  lemma QuotientBetween(x: real, speed: real, lo: real, hi: real)
    requires lo <= x < hi && speed > 0.0
    ensures lo / speed <= x / speed < hi / speed
  {
  }

  lemma QuotientBelow(x: real, hi: real, speed: real, floor: real)
    requires 0.0 < x < hi && 0.0 < floor <= speed
    ensures 0.0 < x / speed < hi / floor
  {
    var a := x / speed;
    var b := x / floor;
    assert a * speed == x == b * floor;
    assert b * floor <= b * speed;
    assert a <= b;
    QuotientBetween(x, floor, 0.0, hi);
  }

  /**
    The threat ratio is non-zero, so the threat interval's division is
    defined. Only a clock that has gone back past the session start can
    bring the ratio to zero or below.
   */
  predicate RatioDefined(t: Tuning, startTime: Option<int>, now: int)
    requires t.Valid()
  {
    ThreatRatioMultiplier(t, startTime, now) != 0.0
  }

  /** A clock that has not gone back keeps the ratio at 1 or more, hence defined. */
  lemma ClockSaneRatioDefined(t: Tuning, startTime: Option<int>, now: int)
    requires t.Valid() && ClockSane(startTime, now)
    ensures RatioDefined(t, startTime, now)
  {
  }

  /** Un-jittered delay before the next chat threat; never below `MIN_SPAWN_INTERVAL`. */
  function ThreatInterval(t: Tuning, viewers: real, startTime: Option<int>, now: int): (i: real)
    requires t.Valid() && RatioDefined(t, startTime, now)
    ensures MinSpawnInterval <= i
  {
    var speed := ChatSpeedMultiplier(t, viewers);
    var ratio := ThreatRatioMultiplier(t, startTime, now);
    ProductNonZero(speed, ratio);
    Max(MinSpawnInterval, BaseSpawnInterval / (speed * ratio))
  }

  lemma ProductNonZero(speed: real, ratio: real)
    requires speed > 0.0 && ratio != 0.0
    ensures speed * ratio != 0.0
    ensures ratio < 0.0 ==> speed * ratio < 0.0
  {
    if ratio < 0.0 {
      assert speed * ratio == -(speed * -ratio);
    } else {
      assert speed * ratio > 0.0;
    }
  }

  /**
    A ratio driven below zero by a clock that went back makes the quotient
    negative, so the interval clamps to exactly `MIN_SPAWN_INTERVAL`.
   */
  lemma NegativeRatioClampsToMin(t: Tuning, viewers: real, startTime: Option<int>, now: int)
    requires t.Valid() && ThreatRatioMultiplier(t, startTime, now) < 0.0
    ensures ThreatInterval(t, viewers, startTime, now) == MinSpawnInterval
  {
    var speed := ChatSpeedMultiplier(t, viewers);
    var ratio := ThreatRatioMultiplier(t, startTime, now);
    ProductNonZero(speed, ratio);
    NegativeQuotient(BaseSpawnInterval, speed * ratio);
  }

  lemma NegativeQuotient(x: real, y: real)
    requires x > 0.0 && y < 0.0
    ensures x / y < 0.0
  {
    assert (x / y) * y == x;
  }

  /** The slowest the threat spawner gets: the base interval divided by the viewer floor alone. */
  lemma ThreatIntervalBounded(t: Tuning, viewers: real, startTime: Option<int>, now: int)
    requires t.Valid() && ClockSane(startTime, now)
    ensures ThreatInterval(t, viewers, startTime, now) <= Max(MinSpawnInterval, BaseSpawnInterval / t.viewerDifficultyFloor)
  {
    ProductAtLeast(ChatSpeedMultiplier(t, viewers), ThreatRatioMultiplier(t, startTime, now), t.viewerDifficultyFloor);
  }

  /**
    Why the bound needs a clock that has not gone back: a ratio strictly
    between 0 and 1 at the viewer floor lengthens the interval past it.
   */
  lemma SlowRatioExceedsBound(t: Tuning, viewers: real, startTime: Option<int>, now: int)
    requires t.Valid() && 0.0 < ThreatRatioMultiplier(t, startTime, now) < 1.0
    requires ChatSpeedMultiplier(t, viewers) == t.viewerDifficultyFloor
    requires MinSpawnInterval <= BaseSpawnInterval / t.viewerDifficultyFloor
    ensures ThreatInterval(t, viewers, startTime, now) > Max(MinSpawnInterval, BaseSpawnInterval / t.viewerDifficultyFloor)
  {
    var floor := t.viewerDifficultyFloor;
    var ratio := ThreatRatioMultiplier(t, startTime, now);
    assert 0.0 < floor * ratio < floor;
    QuotientGrows(BaseSpawnInterval, floor * ratio, floor);
  }

  lemma QuotientGrows(x: real, a: real, b: real)
    requires x > 0.0 && 0.0 < a < b
    ensures x / a > x / b
  {
    var p := x / a;
    var q := x / b;
    assert p * a == x == q * b;
    assert q * a < q * b;
  }

  lemma ProductAtLeast(speed: real, ratio: real, floor: real)
    requires 0.0 < floor <= speed && 1.0 <= ratio
    ensures speed * ratio >= floor
    ensures BaseSpawnInterval / (speed * ratio) <= BaseSpawnInterval / floor
  {
    assert speed * ratio >= speed * 1.0;
  }

  /**
    Delay before the next chat threat: the interval times a jitter in
    [0.8, 1.2), so never below 0.8 times `MIN_SPAWN_INTERVAL`.
   */
  function ThreatDelay(t: Tuning, viewers: real, startTime: Option<int>, now: int, draw: real): (d: real)
    requires t.Valid() && RatioDefined(t, startTime, now) && IsDraw(draw)
    ensures 0.8 * MinSpawnInterval <= d
  {
    Jittered(ThreatInterval(t, viewers, startTime, now), 0.8, 1.2, draw)
  }

  /** The threat delay stays within the jitter band around the current interval. */
  lemma ThreatDelayJitter(t: Tuning, viewers: real, startTime: Option<int>, now: int, draw: real)
    requires t.Valid() && RatioDefined(t, startTime, now) && IsDraw(draw)
    ensures var i := ThreatInterval(t, viewers, startTime, now);
      0.8 * i <= ThreatDelay(t, viewers, startTime, now, draw) < 1.2 * i
  {
  }

  /** The threat delay stays below 1.2 times the slowest interval. */
  lemma ThreatDelayBounded(t: Tuning, viewers: real, startTime: Option<int>, now: int, draw: real)
    requires t.Valid() && ClockSane(startTime, now) && IsDraw(draw)
    ensures ThreatDelay(t, viewers, startTime, now, draw) < 1.2 * Max(MinSpawnInterval, BaseSpawnInterval / t.viewerDifficultyFloor)
  {
    ThreatIntervalBounded(t, viewers, startTime, now);
    ThreatDelayJitter(t, viewers, startTime, now, draw);
  }
}
