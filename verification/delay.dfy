/**
  The cancellable delay (`waitFor` in Batcher.ts): a suspension that either
  elapses once its duration has passed or is interrupted early by its owner.
  Like the promise it models, it settles at most once: whichever of the timer
  and the interrupt comes first decides the outcome for good.
 */
module Delay {
  import opened Wrappers

  /** How a suspension ended. */
  datatype Outcome = Interrupted | Elapsed

  /** One armed suspension: when it was started, when its timer fires, and
      its outcome once settled. */
  datatype Wait = Wait(armedAt: int, deadline: int, settled: Option<Outcome>)

  /** Starts a suspension of `duration` at time `now`. A negative duration
      is treated as immediate, as a timer does. */
  function Arm(now: int, duration: int): (w: Wait)
    ensures w.armedAt == now && w.settled.None?
    ensures w.deadline >= now
    ensures duration >= 0 ==> w.deadline == now + duration
    ensures duration <= 0 ==> w.deadline == now
  {
    Wait(now, if duration <= 0 then now else now + duration, None)
  }

  /** The interrupt handle: settles a pending suspension as interrupted and
      leaves a settled one alone. */
  function Cancel(w: Wait): (w': Wait)
    ensures w'.armedAt == w.armedAt && w'.deadline == w.deadline
    ensures w'.settled.Some?
    ensures w.settled.Some? ==> w' == w
    ensures w.settled.None? ==> w'.settled == Some(Interrupted)
  {
    if w.settled.None? then w.(settled := Some(Interrupted)) else w
  }

  /** The timer: at time `now`, a pending suspension whose deadline has
      come settles as elapsed; anything else is left alone. */
  function Expire(w: Wait, now: int): (w': Wait)
    ensures w'.armedAt == w.armedAt && w'.deadline == w.deadline
    ensures w.settled.Some? ==> w' == w
    ensures w.settled.None? && now < w.deadline ==> w' == w
    ensures w.settled.None? && now >= w.deadline ==> w'.settled == Some(Elapsed)
  {
    if w.settled.None? && now >= w.deadline then w.(settled := Some(Elapsed)) else w
  }

  /** Settlement is final: neither the interrupt nor the timer changes a
      suspension that has already settled. */
  lemma SettlementIsFinal(w: Wait, now: int)
    requires w.settled.Some?
    ensures Cancel(w) == w && Expire(w, now) == w
  {
  }

  /** Interrupting twice is the same as interrupting once. */
  lemma CancelIdempotent(w: Wait)
    ensures Cancel(Cancel(w)) == Cancel(w)
  {
  }

  /** An interrupt that lands before the timer wins: the timer can no longer
      turn the suspension into an elapsed one. */
  lemma InterruptBeatsLaterTimer(w: Wait, now: int)
    requires w.settled.None?
    ensures Expire(Cancel(w), now).settled == Some(Interrupted)
  {
  }

  /** A suspension elapses exactly when it is still pending and its deadline
      has come. */
  lemma ElapsesOnlyAtDeadline(w: Wait, now: int)
    requires w.settled.None?
    ensures Expire(w, now).settled == Some(Elapsed) <==> now >= w.deadline
  {
  }
}
