/**
  The coordinator's configuration and its adaptive delay formula
  (the options record, the constructor defaults and lines 72-81 of
  Batcher.ts). Times and durations are whole milliseconds.
 */
module Policy {
  import opened Wrappers

  /** The options a caller passes to the constructor; `None` is an omitted
      field. `maxCount` is `None` for "unbounded" (JavaScript's `Infinity`). */
  datatype Options = Options(
    defaultDelay: Option<int>,
    minDelay: Option<int>,
    maxDelay: int,
    maxCount: Option<nat>)

  /** The immutable timing and size policy of one coordinator. */
  datatype Config = Config(
    defaultDelay: int,
    minDelay: int,
    maxDelay: int,
    maxCount: Option<nat>)

  /** Quiet period used when the caller gives none. */
  const DefaultQuietPeriod: int := 1

  /** Minimum accumulation window used when the caller gives none. */
  const DefaultMinWindow: int := 0

  /** The constructor: omitted delays take their defaults, an omitted
      `maxCount` means unbounded, and nothing is validated. */
  function FromOptions(o: Options): (c: Config)
    ensures c.maxDelay == o.maxDelay && c.maxCount == o.maxCount
    ensures o.defaultDelay.None? ==> c.defaultDelay == 1
    ensures o.defaultDelay.Some? ==> c.defaultDelay == o.defaultDelay.value
    ensures o.minDelay.None? ==> c.minDelay == 0
    ensures o.minDelay.Some? ==> c.minDelay == o.minDelay.value
  {
    Config(
      o.defaultDelay.GetOr(DefaultQuietPeriod),
      o.minDelay.GetOr(DefaultMinWindow),
      o.maxDelay,
      o.maxCount)
  }

  /** The loop's size check: the open batch holds at least `maxCount` items. */
  predicate CountReached(c: Config, n: nat) {
    c.maxCount.Some? && n >= c.maxCount.value
  }

  function Min(a: int, b: int): int { if a <= b then a else b }
  function Max(a: int, b: int): int { if a >= b then a else b }

  /** The wait the loop asks for at time `now`, for a batch opened at
      `startTime` whose latest arrival was at `lastTime`: the larger of the
      time left in the minimum window and the time left in the quiet period,
      capped by the time left in the maximum window. */
  function NextDelay(c: Config, now: int, startTime: int, lastTime: int): (next: int)
    ensures next <= c.maxDelay - (now - startTime)
    ensures next <= Max(c.minDelay - (now - startTime), c.defaultDelay - (now - lastTime))
    ensures next == c.maxDelay - (now - startTime)
         || (next >= c.minDelay - (now - startTime)
             && next >= c.defaultDelay - (now - lastTime)
             && (next == c.minDelay - (now - startTime) || next == c.defaultDelay - (now - lastTime)))
  {
    Min(c.maxDelay - (now - startTime),
        Max(c.minDelay - (now - startTime), c.defaultDelay - (now - lastTime)))
  }

  /** The absolute moment a batch is due, as a point in time: the end of the
      quiet period, but no earlier than the end of the minimum window and no
      later than the end of the maximum window. */
  function BatchDeadline(c: Config, startTime: int, lastTime: int): (due: int)
    ensures due <= startTime + c.maxDelay
    ensures due <= Max(startTime + c.minDelay, lastTime + c.defaultDelay)
    ensures due >= Min(startTime + c.maxDelay, startTime + c.minDelay)
    ensures due >= Min(startTime + c.maxDelay, lastTime + c.defaultDelay)
    ensures due == startTime + c.maxDelay || due == startTime + c.minDelay || due == lastTime + c.defaultDelay
  {
    Min(startTime + c.maxDelay, Max(startTime + c.minDelay, lastTime + c.defaultDelay))
  }

  /** Whatever the moment the delay is computed, it aims at the same absolute
      deadline: recomputing without a new arrival does not move the target. */
  lemma NextDelayAimsAtDeadline(c: Config, now: int, startTime: int, lastTime: int)
    ensures now + NextDelay(c, now, startTime, lastTime) == BatchDeadline(c, startTime, lastTime)
  {
  }

  /** The computed wait never holds the batch past its maximum window. */
  lemma WaitWithinMaxWindow(c: Config, now: int, startTime: int, lastTime: int)
    ensures now + NextDelay(c, now, startTime, lastTime) <= startTime + c.maxDelay
  {
  }

  /** Inside both the minimum and the maximum window the wait is strictly
      positive: the minimum window is honoured unless the maximum window has
      already run out. */
  lemma MinWindowHonoured(c: Config, now: int, startTime: int, lastTime: int)
    requires now - startTime < c.minDelay
    requires now - startTime < c.maxDelay
    ensures NextDelay(c, now, startTime, lastTime) > 0
  {
  }

  /** Once the quiet period has passed and the batch is past its minimum
      window but not past its maximum window, the wait is not positive:
      the batch is due now. */
  lemma QuietBatchIsDue(c: Config, now: int, startTime: int, lastTime: int)
    requires now - lastTime >= c.defaultDelay
    requires now - startTime >= c.minDelay
    requires now - startTime <= c.maxDelay
    ensures NextDelay(c, now, startTime, lastTime) <= 0
  {
  }

  /** Past the maximum window the wait is never positive, whatever the
      other two terms say. */
  lemma OverdueBatchIsDue(c: Config, now: int, startTime: int, lastTime: int)
    requires now - startTime >= c.maxDelay
    ensures NextDelay(c, now, startTime, lastTime) <= 0
  {
  }

  /** With no `maxCount` the size check never stops the loop. */
  lemma UnboundedCountNeverReached(c: Config, n: nat)
    requires c.maxCount.None?
    ensures !CountReached(c, n)
  {
  }
}
