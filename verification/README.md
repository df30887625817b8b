# Adaptive request batcher — a Dafny model

This project models the core of `http-batcher`: the `Batcher` class, which
collects independent requests that arrive at arbitrary times into one call to
an expensive batch processor, and hands each caller the result at its own
position in that batch.

The model removes timers and promises. What is left is a small deterministic
transition system over integer milliseconds:

- **Delay** (`delay.dfy`) is the cancellable suspension `waitFor`. A `Wait`
  records when it was armed, when its timer fires, and how it settled. It
  settles once, either `Interrupted` or `Elapsed`, and whichever comes first
  wins.
- **Policy** (`policy.dfy`) holds the constructor options and their defaults
  (quiet period 1 ms, minimum window 0, unbounded count). It also holds the
  count check and the adaptive delay formula `NextDelay`. `BatchDeadline`
  restates the formula as the absolute time at which a batch is due.
- **Batcher** (`batcher.dfy`) is the coordinator itself. Its state is the
  policy plus one optional open batch (`pendingRequests`): the items in arrival
  order, `startTime`, `lastTime`, and the loop's current wait. Because the slot
  is an `Option`, at most one batch is ever open. The steps are:
  - `Queue`: submission, made of `Create` and `Add`;
  - `Loop`: the head of the accumulation loop, which checks the count and
    then arms a new delay;
  - `Wake`: the event loop resumes the suspended loop at time `now`.
    An elapsed wait seals the batch. An interrupted wait goes back to the loop
    head. A pending wait keeps waiting.

  `Inv` is the timing invariant that every step preserves.
- **Dispatch** (`dispatch.dfy`) is `fire` after the seal. It runs the
  single-item processor or the batch processor. It then gives each caller
  either the entry at its own index or the batch's one shared failure.
- **Trace** (`trace.dfy`) covers whole runs from a fresh coordinator. Each
  caller gets a ticket: a batch number and a result index. `RunConsistent`
  proves three things for every run:
  - every submitted item is in exactly one batch;
  - batches keep submission order;
  - every ticket points at its caller's own position, so no two callers
    share a ticket even when their items are equal.
- **AsWritten** (`as_written.dfy`) computes the first wait of each batch the
  way the source actually does (see Findings).
- **Scenarios** (`scenarios.dfy`) replays concrete runs event by event.

Time is an argument to every step, in place of `Date.now()`. The three clock
reads inside the delay formula become one `now`. The two processors are
parameters of `Dispatch.Fire`. Each is a function from its input to one
outcome, success or failure.

What the model takes from `Batcher.ts` as it stands:

- **Count ceiling.** `add` never checks the count. The loop checks it only when
  it wakes, so a sealed batch can hold more than `maxCount` items if several
  submissions land before the wake (`Scenarios.CountCeilingCanOvershoot`). No
  bound of `maxCount` is claimed for sealed batches.
- **Validation.** The constructor validates nothing. A non-positive `maxDelay`
  or a `maxCount` below 1 is accepted. With such a `maxCount`, every batch is
  sealed as soon as it is opened.

In three places the model follows what the code evidently intends rather than
what it does:

- **Receiver on line 52.** `queue` calls `this.add` or `this.create` through a
  conditional expression. That call loses the receiver, so as written every
  call to `queue` would fail inside `add` or `create`. The model uses the
  coordinator itself as the receiver.
- **Timestamps in `create` (lines 63-68).** `create` starts the loop before it
  records `startTime` and never records `lastTime`. As written, each batch's
  first wait therefore uses stale or undefined timestamps, and is often due at
  once. The model records both timestamps before the loop runs. The as-written
  first wait is kept in `AsWritten` (see Findings).
- **Clearing order in `fire` (lines 94-104).** `fire` calls the processor
  before it clears `pendingRequests`. The model empties the slot at the seal,
  before the processor runs (see "## Left out").

All scenarios in `scenarios.dfy` are runs of this intended coordinator. Under
the code as written they would differ. For example, with a 10 ms quiet period
and items at 0, 5 and 12 on a fresh coordinator, the as-written first waits are due at once, so each
item is sealed on its own. In the model, items at 0 and 5 form one batch that
is due at 15. An item at 12 joins that batch
(`Scenarios.LateArrivalJoinsOpenBatch`), and an item at 16 opens a new one
(`Scenarios.QuietPeriodSealsPair`).

## Model

| member | source | states |
|---|---|---|
| Delay.Arm | Batcher.ts:13-20 | a new wait is pending and armed at `now`; it is due `duration` later, or at once for a duration that is not positive |
| Delay.Cancel | Batcher.ts:14-16 | interrupting settles a pending wait as Interrupted and leaves a settled wait, its arming time and its deadline untouched |
| Delay.Expire | Batcher.ts:17 | the timer settles a pending wait as Elapsed exactly when its deadline has come; it never changes a settled wait |
| Delay.SettlementIsFinal | Batcher.ts:15-17 | once settled, neither the interrupt nor the timer changes a wait |
| Delay.CancelIdempotent | Batcher.ts:14-16 | interrupting twice has the effect of interrupting once |
| Delay.InterruptBeatsLaterTimer | Batcher.ts:82-88 | an interrupt that lands first makes the loop see Interrupted even after the deadline passes |
| Delay.ElapsesOnlyAtDeadline | Batcher.ts:17 | a pending wait elapses if and only if the time has reached its deadline |
| Policy.FromOptions | Batcher.ts:35-49 | omitted options default to a 1 ms quiet period, a 0 ms minimum window and an unbounded count; given options are kept |
| Policy.NextDelay | Batcher.ts:75-81 | the wait is at most the time left in the max window and at most the larger of the time left in the min window and in the quiet period; when it is below the first bound it equals the second, so the value is fully determined |
| Policy.BatchDeadline | Batcher.ts:75-81 | a batch is due no later than the end of its max window and no later than the later of the ends of its min window and quiet period, and no earlier than either of those ends unless the max window ends first |
| Policy.NextDelayAimsAtDeadline | Batcher.ts:75-81 | `now` plus the computed wait is the batch deadline whatever `now` is, so recomputing without a new arrival keeps the same target |
| Policy.WaitWithinMaxWindow | Batcher.ts:75-81 | the computed wait never reaches past `startTime + maxDelay` |
| Policy.MinWindowHonoured | Batcher.ts:75-81 | inside both the min and the max window the computed wait is strictly positive |
| Policy.QuietBatchIsDue | Batcher.ts:75-81 | once the quiet period has passed and the batch is between its min and max windows, the wait is not positive |
| Policy.OverdueBatchIsDue | Batcher.ts:75-81 | past the max window the wait is not positive, whatever the other terms say |
| Policy.UnboundedCountNeverReached | Batcher.ts:72-74 | with the default unbounded `maxCount` the size check never ends the loop |
| Batcher.Init | Batcher.ts:35-49 | a fresh coordinator has the given policy and no open batch |
| Batcher.Loop | Batcher.ts:71-83 | the loop head seals the batch exactly when the count ceiling is reached; otherwise it arms a pending wait at `now`, due at the batch deadline or at once if that has passed |
| Batcher.Create | Batcher.ts:63-68 | with no open batch, a submission opens the batch `[t]` with both timestamps at `now` and result index 0, or seals `[t]` at once when the ceiling is 1 or less |
| Batcher.Add | Batcher.ts:55-61 | a submission to the open batch appends `t` at the end, returns the pre-append length, sets `lastTime` to `now`, keeps `startTime`, and interrupts a wait that is still pending; a wait already settled (a second submission before the loop resumes) is left exactly as it was |
| Batcher.Queue | Batcher.ts:51-53 | the result index is the number of items already open; the open batch afterwards is the old one plus `t`, and a submission seals only a batch it opened itself |
| Batcher.Wake | Batcher.ts:82-91 | only an elapsed wait or a reached ceiling seals, and sealing yields exactly the open items and empties the slot; an interrupted wait below the ceiling re-arms at `now` with the batch unchanged, due at the deadline recomputed from the batch's (possibly new) `lastTime`, or at once if that has passed; a pending wait not yet due changes nothing |
| Batcher.InitInv | Batcher.ts:35-49 | a fresh coordinator satisfies the timing invariant |
| Batcher.QueuePreservesInv | Batcher.ts:51-68 | submissions keep the open batch non-empty and its pending wait between the batch deadline and the end of the max window |
| Batcher.WakePreservesInv | Batcher.ts:70-92 | waking the loop keeps the same invariant |
| Batcher.ElapsedSealRespectsWindows | Batcher.ts:75-89 | a batch sealed by an elapsed wait is sealed at or after its deadline: past the min window (capped by the max window) and past the quiet period after its latest item, unless the max window ran out |
| Batcher.PendingWaitWithinMaxWindow | Batcher.ts:75-83 | a pending wait is due by the end of the max window, or at once if it was armed after that |
| Batcher.OpenedBatchHonoursMinWindow | Batcher.ts:63-81 | opening a batch below the ceiling arms a wait due at `now + min(maxDelay, max(minDelay, defaultDelay))`, or at once when that is not positive |
| Batcher.SealThenQueueOpensFresh | Batcher.ts:94-104 | after a seal the next submission opens a fresh batch holding only its own item, at index 0, opened at its own time |
| Dispatch.Fire | Batcher.ts:94-104 | a one-item batch with a single-item processor gets that processor's result as a one-element list, or its failure; any other batch gets the batch processor's outcome on the full ordered list |
| Dispatch.Deliver | Batcher.ts:60-67 | a caller fails exactly when its batch failed, with the batch's error; otherwise it gets the entry at its index, or undefined past the end of the list |
| Dispatch.FailureFansOut | Batcher.ts:60-67 | every caller of a failed batch receives the same failure |
| Dispatch.CallersReceiveOwnIndex | Batcher.ts:94-104 | when the processor returns one result per item, each caller receives the entry at its own index |
| Dispatch.SingleCallerGetsPreferredOutcome | Batcher.ts:95-98 | the lone caller of a one-item batch receives the single-item processor's outcome for its item |
| Dispatch.SingleShortcutIsTransparent | Batcher.ts:95-103 | when the single-item processor agrees with the batch processor on one-element lists, using it does not change any batch's outcome |
| Trace.SubmitPreservesConsistent | Batcher.ts:51-68 | a submission keeps every item in exactly one batch in order, and every ticket pointing at its caller's own position: the `k`-th submission is the `k`-th item over all batches |
| Trace.WakePreservesConsistent | Batcher.ts:70-104 | a wake-up, including a seal, keeps the same run invariant, positions of tickets included |
| Trace.SealKeepsConsistent | Batcher.ts:89-104 | sealing the open batch moves its items, unchanged and in order, to the end of the sealed list, so every ticket still locates its caller's item |
| Trace.QuietWakeKeepsConsistent | Batcher.ts:82-87 | a wake-up that seals nothing and leaves the open items as they were keeps the run invariant |
| Trace.RunConsistent | Batcher.ts:51-104 | in every run, the sealed batches followed by the open batch are the submitted items in order, no sealed batch is empty, and the `k`-th caller's ticket names position `k` over all batches in seal order, which holds the `k`-th submitted item |
| Trace.TicketsAreDistinct | Batcher.ts:55-67 | no two callers of a run hold the same ticket, even when their items are equal |
| Trace.CallerReceivesOwnItemsResult | Batcher.ts:55-67 | a caller whose batch was sealed has a result index that is its own submission's position within that batch, and receives that batch's failure or the entry at that index |
| AsWritten.FirstDeadline | Batcher.ts:63-81 | as written, a new batch's first wait is due at once when either timestamp was never set, and otherwise at the deadline computed from the `startTime` of the previous batch and the `lastTime` of the latest `add` on the coordinator, which may belong to an older batch |
| AsWritten.FirstBatchSkipsMinWindow | Batcher.ts:63-68 | as written, a batch opened before any `add` ever ran is due at once even with a positive min window; the intended coordinator keeps it open |
| AsWritten.StaleStartExpiresAtOnce | Batcher.ts:63-81 | as written, a batch opened a full max window after the previous batch opened is due at once |
| AsWritten.SecondBatchScenario | Batcher.ts:63-81 | with a 50 ms min window, a second batch opened at 2000 ms is due at 2000 ms as written and at 2050 ms as intended |
| Scenarios.QuietPeriodSealsAt15 | Batcher.ts:70-104 | items at 0 and 5 with a 10 ms quiet period are still open at 14 and sealed together at 15 as batch 0, indices 0 and 1 |
| Scenarios.QuietPeriodSealsPair | Batcher.ts:51-104 | items at 0 and 5 with a 10 ms quiet period are sealed together at 15, and an item at 16 opens batch 1 at index 0 |
| Scenarios.LateArrivalJoinsOpenBatch | Batcher.ts:55-91 | an item arriving at 12, before that batch is due, joins it |
| Scenarios.CountCeilingSealsAtOnce | Batcher.ts:72-74 | with a ceiling of 2, the loop seals two items on its next wake without waiting, and the next item opens a new batch |
| Scenarios.CountCeilingCanOvershoot | Batcher.ts:55-74 | three items landing before the loop wakes are sealed together despite a ceiling of 2 |
| Scenarios.MinWindowHoldsLoneItem | Batcher.ts:75-91 | with a 50 ms min window and a 1 ms quiet period, a lone item is still open at 49 ms and sealed at 50 ms |

## Left out

- Timers, promises, `async`/`await` and `Date.now()` (Batcher.ts:13-20, 85) are replaced by an explicit `now` argument and the `Wake` step. `Wake` fires a due timer and runs the loop's continuation in one step. The gap between the two, in which the source could still accept an item, is not modelled.
- The three `Date.now()` reads in the delay formula are taken as one instant. The clock is not assumed monotonic, and no step requires it.
- The bodies of `process` and `preferSingle` are not modelled. They are injected callables, passed as functions from input to outcome. A processor that throws synchronously rather than rejecting is not modelled. In the source such a throw escapes before lines 97 and 101 clear `pendingRequests`, and the loop has already exited. The slot then stays set for good: every later `queue` goes to `add`, pushes onto the dead batch, calls a stale interrupt, and awaits the already-rejected `mainPromise`, so every later submission fails with that one error. The model's guarantee that sealing empties the slot assumes processors that reject rather than throw.
- Each caller's promise is reduced to its ticket (batch number and result index) and `Dispatch.Deliver`. The sharing of `mainPromise` between callers and the mechanics of rejection are not modelled.
- Numbers are whole milliseconds and `maxCount` is a natural number or unbounded (`Infinity`). Fractional and NaN configuration values are not modelled. NaN appears only in `AsWritten.FirstDeadline`, as a wait that is due at once.
- The platform's timer rounding, such as a 1 ms minimum or the clamp on very large delays, is not modelled. A wait that is not positive is due at once.
- The lost `this` binding on line 52 is not modelled, because it would make every submission fail. The model uses the intended receiver.
- Dispatch.Fire: the model seals (empties the slot) before the processor runs, whereas lines 96-97 and 100-101 call `preferSingle` or `process` first. A processor that calls `queue` synchronously, before its first `await`, would join the batch being fired in the source, but opens a fresh batch in the model. In the source such a caller would read an entry the processor never produced, or wait forever if the processor awaits it. The model does not reproduce this re-entrant case.
- The first wait of each batch uses the intended timestamps. The source's stale or undefined timestamps are modelled only in `AsWritten` (see Findings).

## Findings

| source | as written | input that shows it | evidently intended | confidence | as-written member | corrected member |
|---|---|---|---|---|---|---|
| Batcher.ts:63-66 | `create` starts the loop before it sets `startTime` and never sets `lastTime`, so the first delay uses the previous batch's `startTime` and the time of the latest `add` on the coordinator (possibly in an older batch), or undefined ones (NaN, a timer that fires at once) | first batch with `minDelay = 50`, `defaultDelay = 1`, `maxDelay = 1000`, opened at 0: as written it is due at 0, not at 50; a second batch opened at 2000 after one opened at 0 is due at 2000, not at 2050 | set `startTime = lastTime = now` before the loop computes its first delay | high; not executed | AsWritten.FirstBatchSkipsMinWindow | Batcher.OpenedBatchHonoursMinWindow |
