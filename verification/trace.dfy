/**
  Whole runs of the coordinator: a sequence of submissions and wake-ups
  applied from a fresh coordinator, with the log of what each caller was
  promised and which item lists were sealed. The run-level invariant is the
  batching guarantee: every submitted item is in exactly one batch, in
  submission order, at the position its caller's result index names.
 */
module Trace {
  import opened Wrappers
  import opened Policy
  import opened Batcher
  import opened Dispatch

  /** What can happen to a coordinator: a submission of `item` at time `at`,
      or the event loop waking the accumulation loop at time `at`. */
  datatype Event<T> = Submit(item: T, at: int) | WakeUp(at: int)

  /** What a caller is promised: the result at `index` of the `batch`-th
      sealed batch (counting from 0 over the whole run). */
  datatype Ticket = Ticket(batch: nat, index: nat)

  /** The state of a run: the coordinator, every submitted item in order,
      one ticket per submission, and the sealed item lists in seal order. */
  datatype History<T> = History(state: State<T>, submitted: seq<T>, tickets: seq<Ticket>, sealed: seq<seq<T>>)

  /** All items of a list of batches, batch after batch. */
  function Concat<T>(bs: seq<seq<T>>): seq<T> {
    if |bs| == 0 then [] else Concat(bs[..|bs| - 1]) + bs[|bs| - 1]
  }

  function AddSealed<T>(sealed: seq<seq<T>>, s: Option<seq<T>>): seq<seq<T>> {
    if s.Some? then sealed + [s.value] else sealed
  }

  /** Applies one event to a run. A submission's ticket names the batch that
      is open after it (or the one it sealed at once): the next batch in
      seal order. */
  function Apply<T>(h: History<T>, e: Event<T>): History<T> {
    match e
    case Submit(t, now) =>
      var q := Queue(h.state, t, now);
      History(q.state, h.submitted + [t], h.tickets + [Ticket(|h.sealed|, q.index)], AddSealed(h.sealed, q.sealed))
    case WakeUp(now) =>
      var st := Wake(h.state, now);
      History(st.state, h.submitted, h.tickets, AddSealed(h.sealed, st.sealed))
  }

  /** The run of `events` from a fresh coordinator with policy `cfg`. */
  function Run<T>(cfg: Config, events: seq<Event<T>>): History<T> {
    if |events| == 0 then History(Init(cfg), [], [], [])
    else Apply(Run(cfg, events[..|events| - 1]), events[|events| - 1])
  }

  /** A run extended by one event is that event applied to the run. */
  lemma RunSnoc<T>(cfg: Config, events: seq<Event<T>>, e: Event<T>)
    ensures Run(cfg, events + [e]) == Apply(Run(cfg, events), e)
  {
    assert (events + [e])[..|events|] == events;
  }

  /** The `k`-th caller's ticket points at its own item by position: the
      entry it names is the `k`-th submitted item in the concatenation of
      all batches, in a sealed batch or in the open batch when its batch is
      the next to be sealed. */
  ghost predicate Locates<T>(h: History<T>, k: nat)
    requires k < |h.submitted| && k < |h.tickets|
  {
    var tk := h.tickets[k];
    if tk.batch < |h.sealed| then
      && tk.index < |h.sealed[tk.batch]|
      && h.sealed[tk.batch][tk.index] == h.submitted[k]
      && |Concat(h.sealed[..tk.batch])| + tk.index == k
    else
      && tk.batch == |h.sealed|
      && h.state.pending.Some?
      && tk.index < |h.state.pending.value.items|
      && h.state.pending.value.items[tk.index] == h.submitted[k]
      && |Concat(h.sealed)| + tk.index == k
  }

  /** The run-level invariant. */
  ghost predicate Consistent<T>(h: History<T>) {
    && |h.tickets| == |h.submitted|
    && Inv(h.state)
    && Concat(h.sealed) + OpenItems(h.state) == h.submitted
    && (forall b :: 0 <= b < |h.sealed| ==> |h.sealed[b]| >= 1)
    && (forall k :: 0 <= k < |h.submitted| ==> Locates(h, k))
  }

  lemma ConcatAppend<T>(bs: seq<seq<T>>, b: seq<T>)
    ensures Concat(bs + [b]) == Concat(bs) + b
  {
    assert (bs + [b])[..|bs|] == bs;
  }

  /** A ticket into a sealed batch stays valid whatever happens next. */
  lemma SealedTicketsStay<T>(h: History<T>, h': History<T>, k: nat)
    requires k < |h.submitted| && k < |h.tickets| && Locates(h, k)
    requires h.tickets[k].batch < |h.sealed|
    requires |h.submitted| <= |h'.submitted| && h'.submitted[..|h.submitted|] == h.submitted
    requires |h.tickets| <= |h'.tickets| && h'.tickets[..|h.tickets|] == h.tickets
    requires |h.sealed| <= |h'.sealed| && h'.sealed[..|h.sealed|] == h.sealed
    ensures Locates(h', k)
  {
    assert h'.tickets[k] == h.tickets[k];
    assert h'.submitted[k] == h.submitted[k];
    assert h'.sealed[h.tickets[k].batch] == h.sealed[h.tickets[k].batch];
    assert h'.sealed[..h.tickets[k].batch] == h.sealed[..h.tickets[k].batch];
  }

  /** A submission keeps the run consistent. */
  lemma {:induction false} SubmitPreservesConsistent<T>(h: History<T>, t: T, now: int)
    requires Consistent(h)
    ensures Consistent(Apply(h, Submit(t, now)))
  {
    var h' := Apply(h, Submit(t, now));
    var q := Queue(h.state, t, now);
    QueuePreservesInv(h.state, t, now);
    assert h'.submitted[..|h.submitted|] == h.submitted;
    assert h'.tickets[..|h.tickets|] == h.tickets;
    if q.sealed.Some? {
      ConcatAppend(h.sealed, [t]);
      assert h'.sealed[..|h.sealed|] == h.sealed;
    } else {
      assert h'.sealed == h.sealed;
    }
    forall k | 0 <= k < |h'.submitted|
      ensures Locates(h', k)
    {
      if k == |h.submitted| {
        assert h'.tickets[k] == Ticket(|h.sealed|, q.index);
        assert h'.sealed[..|h.sealed|] == h.sealed;
      } else if h.tickets[k].batch < |h.sealed| {
        SealedTicketsStay(h, h', k);
      } else {
        assert Locates(h, k);
        assert h'.tickets[k] == h.tickets[k];
        assert h.state.pending.Some?;
        assert h'.state.pending.value.items == h.state.pending.value.items + [t];
      }
    }
  }

  /** Sealing the open batch, which moves its items to the end of the
      sealed list and empties the slot, keeps the run consistent. */
  lemma {:induction false} SealKeepsConsistent<T>(h: History<T>, s': State<T>)
    requires Consistent(h)
    requires h.state.pending.Some?
    requires s'.pending.None? && Inv(s')
    ensures Consistent(History(s', h.submitted, h.tickets, h.sealed + [h.state.pending.value.items]))
  {
    var items := h.state.pending.value.items;
    var h' := History(s', h.submitted, h.tickets, h.sealed + [items]);
    ConcatAppend(h.sealed, items);
    assert h'.sealed[..|h.sealed|] == h.sealed;
    assert h'.submitted[..|h.submitted|] == h.submitted;
    assert h'.tickets[..|h.tickets|] == h.tickets;
    forall k | 0 <= k < |h'.submitted|
      ensures Locates(h', k)
    {
      assert Locates(h, k);
      if h.tickets[k].batch < |h.sealed| {
        SealedTicketsStay(h, h', k);
      } else {
        assert h'.sealed[|h.sealed|] == items;
      }
    }
  }

  /** A wake-up that seals nothing and leaves the open items and the slot's
      occupancy as they were keeps the run consistent. */
  lemma {:induction false} QuietWakeKeepsConsistent<T>(h: History<T>, s': State<T>)
    requires Consistent(h)
    requires Inv(s')
    requires s'.pending.Some? <==> h.state.pending.Some?
    requires OpenItems(s') == OpenItems(h.state)
    ensures Consistent(History(s', h.submitted, h.tickets, h.sealed))
  {
    var h' := History(s', h.submitted, h.tickets, h.sealed);
    forall k | 0 <= k < |h'.submitted|
      ensures Locates(h', k)
    {
      assert Locates(h, k);
    }
  }

  /** A wake-up keeps the run consistent. */
  lemma {:induction false} WakePreservesConsistent<T>(h: History<T>, now: int)
    requires Consistent(h)
    ensures Consistent(Apply(h, WakeUp(now)))
  {
    var st := Wake(h.state, now);
    WakePreservesInv(h.state, now);
    if st.sealed.Some? {
      assert Apply(h, WakeUp(now))
          == History(st.state, h.submitted, h.tickets, h.sealed + [h.state.pending.value.items]);
      SealKeepsConsistent(h, st.state);
    } else {
      assert OpenItems(st.state) == OpenItems(h.state);
      assert Apply(h, WakeUp(now)) == History(st.state, h.submitted, h.tickets, h.sealed);
      QuietWakeKeepsConsistent(h, st.state);
    }
  }


  /** Every run from a fresh coordinator is consistent: each submitted item
      lies in exactly one batch (sealed or still open), batches keep
      submission order, and each caller's ticket names its own item. */
  lemma {:induction false} RunConsistent<T>(cfg: Config, events: seq<Event<T>>)
    ensures Consistent(Run(cfg, events))
    ensures Run(cfg, events).state.cfg == cfg
  {
    if |events| == 0 {
      assert Concat<T>([]) == [];
    } else {
      var prefix := events[..|events| - 1];
      RunConsistent(cfg, prefix);
      match events[|events| - 1]
      case Submit(t, now) => SubmitPreservesConsistent(Run(cfg, prefix), t, now);
      case WakeUp(now) => WakePreservesConsistent(Run(cfg, prefix), now);
    }
  }

  /** No two callers of a run hold the same ticket, even when they
      submitted equal items: a ticket determines its caller's position. */
  lemma TicketsAreDistinct<T>(cfg: Config, events: seq<Event<T>>, j: nat, k: nat)
    requires j < k < |Run(cfg, events).submitted|
    ensures j < |Run(cfg, events).tickets| && k < |Run(cfg, events).tickets|
    ensures Run(cfg, events).tickets[j] != Run(cfg, events).tickets[k]
  {
    RunConsistent(cfg, events);
    var h := Run(cfg, events);
    assert Locates(h, j) && Locates(h, k);
  }

  /** Each caller's result comes from the batch its ticket names: once that
      batch has been sealed and fired, the caller's index is the position of
      its own item (the `k`-th submission is the `k`-th item over all batches
      in seal order), and it receives the batch's failure or the entry at
      that index. */
  lemma CallerReceivesOwnItemsResult<T, R, E>(cfg: Config, events: seq<Event<T>>, k: nat,
                                              process: seq<T> -> Result<seq<R>, E>,
                                              preferSingle: Option<T -> Result<R, E>>)
    requires k < |Run(cfg, events).submitted| && k < |Run(cfg, events).tickets|
    requires Run(cfg, events).tickets[k].batch < |Run(cfg, events).sealed|
    ensures var h := Run(cfg, events);
      var tk := h.tickets[k];
      var batch := h.sealed[tk.batch];
      var outcome := Fire(batch, process, preferSingle);
      && tk.index < |batch|
      && batch[tk.index] == h.submitted[k]
      && |Concat(h.sealed[..tk.batch])| + tk.index == k
      && (outcome.Failure? ==> Deliver(outcome, tk.index) == Failure(outcome.error))
      && (outcome.Success? && |outcome.value| == |batch| ==>
            Deliver(outcome, tk.index) == Success(Some(outcome.value[tk.index])))
  {
    RunConsistent(cfg, events);
    assert Locates(Run(cfg, events), k);
  }
}
