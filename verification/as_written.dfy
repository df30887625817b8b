/**
  The first suspension of each batch as Batcher.ts actually computes it.
  `create` starts the loop before it records `startTime`, and never records
  `lastTime`, so the loop's first pass reads the timestamps left behind by
  the previous batch, or undefined ones before any batch has been opened.
  Arithmetic on undefined gives NaN, and a timer given NaN fires at once.
  The rest of the model uses the intended behaviour instead (`Batcher.Create`
  records both timestamps before the loop runs).
 */
module AsWritten {
  import opened Wrappers
  import opened Policy
  import opened Delay
  import opened Batcher

  /** The deadline of a new batch's first suspension, opened at `now`, given
      the `startTime` and `lastTime` fields as the previous batch left them
      (`None` when never set). */
  function FirstDeadline(cfg: Config, now: int, prevStart: Option<int>, prevLast: Option<int>): (deadline: int)
    ensures deadline >= now
    ensures prevStart.None? || prevLast.None? ==> deadline == now
    ensures prevStart.Some? && prevLast.Some? ==>
      deadline == Max(now, BatchDeadline(cfg, prevStart.value, prevLast.value))
  {
    if prevStart.Some? && prevLast.Some? then
      NextDelayAimsAtDeadline(cfg, now, prevStart.value, prevLast.value);
      Arm(now, NextDelay(cfg, now, prevStart.value, prevLast.value)).deadline
    else
      now
  }

  /** Before any item has joined an open batch, the first batch's first
      suspension is due at once, whatever the minimum window; the intended
      coordinator keeps it open for the minimum window (capped by the
      maximum window). */
  lemma FirstBatchSkipsMinWindow<T>(cfg: Config, t: T, now: int, prevStart: Option<int>)
    requires 0 < cfg.minDelay && 0 < cfg.maxDelay
    requires !CountReached(cfg, 1)
    ensures FirstDeadline(cfg, now, prevStart, None) == now
    ensures Queue(Init<T>(cfg), t, now).state.pending.Some?
    ensures Queue(Init<T>(cfg), t, now).state.pending.value.wait.deadline > now
  {
    OpenedBatchHonoursMinWindow(Init<T>(cfg), t, now);
  }

  /** A batch opened more than a maximum window after the previous one was
      opened inherits that stale start time, so its first suspension is due
      at once. */
  lemma StaleStartExpiresAtOnce(cfg: Config, now: int, prevStart: int, prevLast: int)
    requires prevStart + cfg.maxDelay <= now
    ensures FirstDeadline(cfg, now, Some(prevStart), Some(prevLast)) == now
  {
  }

  /** The scenario with a 50 ms minimum window, 1 ms quiet period and
      1000 ms maximum window, second batch opened at 2000 ms after a first
      batch opened and last touched at 0 ms: as written the batch is due at
      2000 ms, as intended at 2050 ms. */
  lemma SecondBatchScenario()
    ensures var cfg := Config(1, 50, 1000, None);
      && FirstDeadline(cfg, 2000, Some(0), Some(0)) == 2000
      && Queue(Init<int>(cfg), 7, 2000).state.pending.value.wait.deadline == 2050
  {
  }
}
