/**
  The batch coordinator of Batcher.ts as a deterministic transition system.
  Timers and promises are gone: time is an explicit argument, the
  accumulation loop's suspension is a `Delay.Wait` stored with the open
  batch, and the event loop giving the suspended loop a chance to run is the
  `Wake` step. At most one batch is open, by construction of `State`.
 */
module Batcher {
  import opened Wrappers
  import opened Policy
  import opened Delay

  /** The open batch: its items in arrival order, when it was opened, when
      its latest item arrived, and the loop's current suspension. */
  datatype Open<T> = Open(items: seq<T>, startTime: int, lastTime: int, wait: Wait)

  /** The coordinator: its policy and its single batch slot
      (`pendingRequests`), empty when no batch is open. */
  datatype State<T> = State(cfg: Config, pending: Option<Open<T>>)

  /** The state after a step, and the item list sealed by that step, if any. */
  datatype Step<T> = Step(state: State<T>, sealed: Option<seq<T>>)

  /** The state after a submission, the caller's result index, and the item
      list sealed by that submission, if any. */
  datatype Queued<T> = Queued(state: State<T>, index: nat, sealed: Option<seq<T>>)

  /** A freshly constructed coordinator has no open batch. */
  function Init<T>(cfg: Config): (s: State<T>)
    ensures s.cfg == cfg && s.pending.None?
  {
    State(cfg, None)
  }

  /** The items of the open batch, or none. */
  function OpenItems<T>(s: State<T>): seq<T> {
    if s.pending.Some? then s.pending.value.items else []
  }

  /** One pass through the head of the accumulation loop at time `now`:
      seal when the count ceiling is reached, otherwise compute the next
      delay and suspend on it. */
  function Loop<T>(cfg: Config, items: seq<T>, startTime: int, lastTime: int, now: int): (r: Step<T>)
    ensures r.state.cfg == cfg
    ensures r.sealed.Some? <==> CountReached(cfg, |items|)
    ensures r.sealed.Some? ==> r.sealed.value == items && r.state.pending.None?
    ensures r.sealed.None? ==>
      && r.state.pending.Some?
      && var b := r.state.pending.value;
      && b.items == items && b.startTime == startTime && b.lastTime == lastTime
      && b.wait.armedAt == now && b.wait.settled.None?
      && b.wait.deadline == Max(now, BatchDeadline(cfg, startTime, lastTime))
  {
    if CountReached(cfg, |items|) then
      Step(State(cfg, None), Some(items))
    else
      var w := Arm(now, NextDelay(cfg, now, startTime, lastTime));
      NextDelayAimsAtDeadline(cfg, now, startTime, lastTime);
      Step(State(cfg, Some(Open(items, startTime, lastTime, w))), None)
  }

  /** `create`: open a batch holding just `t`, opened and last touched at
      `now`, and start its loop. The caller's result index is 0. */
  function Create<T>(s: State<T>, t: T, now: int): (r: Queued<T>)
    requires s.pending.None?
    ensures r.index == 0 && r.state.cfg == s.cfg
    ensures r.sealed.Some? <==> CountReached(s.cfg, 1)
    ensures r.sealed.Some? ==> r.sealed.value == [t] && r.state.pending.None?
    ensures r.sealed.None? ==>
      && r.state.pending.Some?
      && var b := r.state.pending.value;
      && b.items == [t] && b.startTime == now && b.lastTime == now
      && b.wait.armedAt == now && b.wait.settled.None?
  {
    var st := Loop(s.cfg, [t], now, now, now);
    Queued(st.state, 0, st.sealed)
  }

  /** `add`: append `t` to the open batch, record its arrival time and
      interrupt the loop's suspension. The caller's result index is the
      length of the batch before the append. */
  function Add<T>(s: State<T>, t: T, now: int): (r: Queued<T>)
    requires s.pending.Some?
    ensures r.sealed.None? && r.state.cfg == s.cfg && r.state.pending.Some?
    ensures var b, b' := s.pending.value, r.state.pending.value;
      && r.index == |b.items|
      && b'.items == b.items + [t]
      && b'.startTime == b.startTime
      && b'.lastTime == now
      && b'.wait.deadline == b.wait.deadline
      && b'.wait.settled.Some?
      && (b.wait.settled.None? ==> b'.wait.settled == Some(Interrupted))
      && (b.wait.settled.Some? ==> b'.wait == b.wait)
  {
    var b := s.pending.value;
    Queued(State(s.cfg, Some(Open(b.items + [t], b.startTime, now, Cancel(b.wait)))), |b.items|, None)
  }

  /** `queue`: submit `t` at time `now`. With no open batch this opens one;
      otherwise `t` joins the open batch at its end. */
  function Queue<T>(s: State<T>, t: T, now: int): (r: Queued<T>)
    ensures r.state.cfg == s.cfg
    ensures r.index == |OpenItems(s)|
    ensures r.sealed.Some? ==> s.pending.None? && r.sealed.value == [t] && r.state.pending.None?
    ensures r.sealed.None? ==> r.state.pending.Some? && r.state.pending.value.items == OpenItems(s) + [t]
    ensures r.state.pending.Some? ==> r.state.pending.value.lastTime == now
    ensures s.pending.Some? ==> r.state.pending.Some? && r.state.pending.value.startTime == s.pending.value.startTime
  {
    if s.pending.Some? then Add(s, t, now) else Create(s, t, now)
  }

  /** The event loop hands control to the suspended accumulation loop at time
      `now`. The timer settles the suspension if it is still pending and due;
      an elapsed suspension seals the batch, an interrupted one goes back to
      the head of the loop, and a pending one keeps waiting. */
  function Wake<T>(s: State<T>, now: int): (r: Step<T>)
    ensures r.state.cfg == s.cfg
    ensures s.pending.None? ==> r == Step(s, None)
    ensures r.sealed.Some? ==>
      && s.pending.Some?
      && r.sealed.value == s.pending.value.items
      && r.state.pending.None?
      && (Expire(s.pending.value.wait, now).settled == Some(Elapsed)
          || CountReached(s.cfg, |s.pending.value.items|))
    ensures s.pending.Some? && Expire(s.pending.value.wait, now).settled == Some(Elapsed) ==>
      r.sealed == Some(s.pending.value.items)
    ensures s.pending.Some? && Expire(s.pending.value.wait, now).settled.None? ==> r == Step(s, None)
    ensures s.pending.Some? && s.pending.value.wait.settled == Some(Interrupted) ==>
      && (r.sealed.Some? <==> CountReached(s.cfg, |s.pending.value.items|))
      && (r.sealed.None? ==>
            && r.state.pending.Some?
            && var b, b' := s.pending.value, r.state.pending.value;
            && b'.items == b.items && b'.startTime == b.startTime && b'.lastTime == b.lastTime
            && b'.wait.armedAt == now && b'.wait.settled.None?
            && b'.wait.deadline == Max(now, BatchDeadline(s.cfg, b.startTime, b.lastTime)))
  {
    match s.pending
    case None => Step(s, None)
    case Some(b) =>
      var w := Expire(b.wait, now);
      match w.settled
      case None => Step(s, None)
      case Some(Elapsed) => Step(State(s.cfg, None), Some(b.items))
      case Some(Interrupted) => Loop(s.cfg, b.items, b.startTime, b.lastTime, now)
  }

  /** What the model keeps true of the open batch: it is never empty, its
      loop has not been left suspended on an elapsed wait, and a pending wait
      is due no earlier than when it was armed and the batch's deadline, and no later than the end
      of its maximum window (or at once, when armed after that end). */
  predicate Inv<T>(s: State<T>) {
    s.pending.Some? ==>
      && var b := s.pending.value;
      && |b.items| >= 1
      && b.wait.settled != Some(Elapsed)
      && (b.wait.settled.None? ==>
            && b.wait.deadline >= b.wait.armedAt
            && b.wait.deadline >= BatchDeadline(s.cfg, b.startTime, b.lastTime)
            && b.wait.deadline <= Max(b.wait.armedAt, b.startTime + s.cfg.maxDelay))
  }

  /** A fresh coordinator satisfies the invariant. */
  lemma InitInv<T>(cfg: Config)
    ensures Inv(Init<T>(cfg))
  {
  }

  /** Submitting preserves the invariant. */
  lemma QueuePreservesInv<T>(s: State<T>, t: T, now: int)
    requires Inv(s)
    ensures Inv(Queue(s, t, now).state)
  {
    if s.pending.None? {
      var st := Loop(s.cfg, [t], now, now, now);
      assert st.state == Queue(s, t, now).state;
    }
  }

  /** Waking the loop preserves the invariant. */
  lemma WakePreservesInv<T>(s: State<T>, now: int)
    requires Inv(s)
    ensures Inv(Wake(s, now).state)
  {
  }

  /** A batch sealed because its wait elapsed is sealed no earlier than its
      deadline: past the minimum window (unless the maximum window is
      shorter) and past the quiet period after its latest arrival (unless
      the maximum window ran out first). */
  lemma ElapsedSealRespectsWindows<T>(s: State<T>, now: int)
    requires Inv(s)
    requires s.pending.Some?
    requires Expire(s.pending.value.wait, now).settled == Some(Elapsed)
    ensures var b := s.pending.value;
      && now >= BatchDeadline(s.cfg, b.startTime, b.lastTime)
      && now - b.startTime >= Min(s.cfg.maxDelay, s.cfg.minDelay)
      && (now - b.lastTime >= s.cfg.defaultDelay || now - b.startTime >= s.cfg.maxDelay)
  {
  }

  /** A pending wait never runs past the batch's maximum window, except
      that a wait armed after that window has closed is due at once. */
  lemma PendingWaitWithinMaxWindow<T>(s: State<T>)
    requires Inv(s)
    requires s.pending.Some? && s.pending.value.wait.settled.None?
    ensures var b := s.pending.value;
      b.wait.deadline <= b.startTime + s.cfg.maxDelay || b.wait.deadline == b.wait.armedAt
  {
  }

  /** Opening a batch below the count ceiling arms a wait that honours the
      minimum window and the quiet period from the first item, both capped
      by the maximum window. */
  lemma OpenedBatchHonoursMinWindow<T>(s: State<T>, t: T, now: int)
    requires s.pending.None?
    requires !CountReached(s.cfg, 1)
    ensures var r := Queue(s, t, now);
      && r.state.pending.Some?
      && r.state.pending.value.wait.deadline
           == Max(now, now + Min(s.cfg.maxDelay, Max(s.cfg.minDelay, s.cfg.defaultDelay)))
  {
  }

  /** After a batch is sealed the slot is empty, so the next submission
      opens a fresh batch holding only its own item at index 0. */
  lemma SealThenQueueOpensFresh<T>(s: State<T>, now: int, t: T, later: int)
    requires Wake(s, now).sealed.Some?
    ensures var r := Queue(Wake(s, now).state, t, later);
      && r.index == 0
      && (r.sealed.Some? ==> r.sealed.value == [t])
      && (r.sealed.None? ==> r.state.pending.value.items == [t] && r.state.pending.value.startTime == later)
  {
  }
}
