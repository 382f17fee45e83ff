/**
  Small shared vocabulary: an optional value, real min/max, the uniform
  "random range" helper, and a model of one timer-handle variable.
 */
module Common {

  /** A value that may be absent (`null` in the TypeScript stores). */
  datatype Option<+T> = None | Some(value: T)

  function Min(a: real, b: real): (r: real)
    ensures r <= a && r <= b
    ensures r == a || r == b
  {
    if a <= b then a else b
  }

  function Max(a: real, b: real): (r: real)
    ensures r >= a && r >= b
    ensures r == a || r == b
  {
    if a >= b then a else b
  }

  /** A uniform deviate in [0, 1), the range of `Math.random()`. */
  predicate IsDraw(x: real) {
    0.0 <= x < 1.0
  }

  /** `min + draw * (max - min)`: a draw in [0, 1) lands in [min, max). */
  function RandomRange(lo: real, hi: real, draw: real): (r: real)
    requires lo < hi && IsDraw(draw)
    ensures lo <= r < hi
  {
    lo + Portion(draw, hi - lo)
  }

  /** `draw * width`: the part of a positive width a draw selects. */
  function Portion(draw: real, width: real): (x: real)
    requires IsDraw(draw) && width > 0.0
    ensures 0.0 <= x < width
  {
    assert (1.0 - draw) * width > 0.0;
    draw * width
  }

  /** A positive interval scaled by a jitter drawn from [lo, hi). */
  function Jittered(interval: real, lo: real, hi: real, draw: real): (d: real)
    requires interval > 0.0 && 0.0 < lo < hi && IsDraw(draw)
    ensures lo * interval <= d < hi * interval
  {
    var jitter := RandomRange(lo, hi, draw);
    assert (hi - jitter) * interval > 0.0;
    assert (jitter - lo) * interval >= 0.0;
    interval * jitter
  }

  /**
    One timer-handle variable (`let graceTimer = null`) together with the
    callbacks the event loop still holds for it.

    `live` is `Some(delay)` when the variable refers to a callback that has
    not fired yet; clearing the variable cancels exactly that callback.
    Assigning a new `setTimeout` to a variable whose callback is still
    pending does not cancel the old one: it stays queued as an orphan, and
    no later clear can reach it. `orphans` counts those.
   */
  datatype Timer = Timer(live: Option<real>, orphans: nat) {

    /** Number of callbacks of this timer the event loop will still run. */
    function Queued(): nat {
      (if live.Some? then 1 else 0) + orphans
    }

    predicate Pending() {
      Queued() > 0
    }

    /** `handle = setTimeout(cb, delay)` (or `setInterval`). */
    function Arm(delay: real): (t: Timer)
      ensures t.live == Some(delay)
      ensures t.Queued() == Queued() + 1
    {
      Timer(Some(delay), orphans + (if live.Some? then 1 else 0))
    }

    /**
      Re-arming without a clear orphans the previous callback: clearing
      afterwards cancels only the new one, so the queue is as long as before.
     */
    lemma ArmThenClear(delay: real)
      ensures Arm(delay).Clear().live.None?
      ensures Arm(delay).Clear().Queued() == Queued()
      ensures Arm(delay).Clear() == this <==> live.None?
    {
    }

    /** `if (handle) { clearTimeout(handle); handle = null }`. */
    function Clear(): (t: Timer)
      ensures t.live.None?
      ensures t.Queued() == orphans
      ensures live.None? ==> t == this
    {
      Timer(None, orphans)
    }

    /** Whether the callback chosen to run is an orphan (`stale`) or the live one. */
    predicate CanFire(stale: bool) {
      if stale then orphans > 0 else live.Some?
    }

    /** A one-shot callback runs and leaves the queue. */
    function Fire(stale: bool): (t: Timer)
      requires CanFire(stale)
      ensures t.Queued() + 1 == Queued()
      ensures stale ==> t.live == live
      ensures !stale ==> t.live.None? && t.orphans == orphans
    {
      if stale then Timer(live, orphans - 1) else Timer(None, orphans)
    }
  }

  /** A handle variable holding `null` with nothing queued. */
  const NoTimer: Timer := Timer(None, 0)
}
