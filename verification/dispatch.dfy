/**
  Firing a sealed batch (`fire` in Batcher.ts) and handing each caller its
  share of the result. The two processors are injected callables whose
  bodies are not part of this model: each is a function from its input to
  one settled outcome, success or failure, shared by the whole batch.
 */
module Dispatch {
  import opened Wrappers

  /** Runs the processor chosen for a sealed batch: the single-item
      processor, wrapped as a one-element list, when the batch has exactly
      one item and that processor is configured; the batch processor with
      the whole ordered list otherwise. */
  function Fire<T, R, E>(items: seq<T>,
                         process: seq<T> -> Result<seq<R>, E>,
                         preferSingle: Option<T -> Result<R, E>>): (r: Result<seq<R>, E>)
    ensures |items| == 1 && preferSingle.Some? ==>
      match preferSingle.value(items[0])
      case Success(v) => r == Success([v])
      case Failure(e) => r == Failure(e)
    ensures !(|items| == 1 && preferSingle.Some?) ==> r == process(items)
  {
    if |items| == 1 && preferSingle.Some? then
      match preferSingle.value(items[0])
      case Success(v) => Success([v])
      case Failure(e) => Failure(e)
    else
      process(items)
  }

  /** What the caller holding result index `index` receives from its batch's
      outcome: the entry at its index, `None` when the result list is too
      short (JavaScript's `undefined`), or the batch's failure. */
  function Deliver<R, E>(outcome: Result<seq<R>, E>, index: nat): (r: Result<Option<R>, E>)
    ensures r.Failure? <==> outcome.Failure?
    ensures outcome.Failure? ==> r.error == outcome.error
    ensures outcome.Success? && index < |outcome.value| ==> r == Success(Some(outcome.value[index]))
    ensures outcome.Success? && index >= |outcome.value| ==> r == Success(None)
  {
    match outcome
    case Failure(e) => Failure(e)
    case Success(results) => Success(if index < |results| then Some(results[index]) else None)
  }

  /** A failed batch fails every one of its callers with the same error:
      no caller is treated as having succeeded. */
  lemma FailureFansOut<R, E>(outcome: Result<seq<R>, E>, i: nat, j: nat)
    requires outcome.Failure?
    ensures Deliver(outcome, i) == Deliver(outcome, j) == Failure(outcome.error)
  {
  }

  /** When the batch processor keeps its promise of one result per item in
      order, every caller of the batch receives the result at its own index. */
  lemma CallersReceiveOwnIndex<T, R, E>(items: seq<T>,
                                        process: seq<T> -> Result<seq<R>, E>,
                                        preferSingle: Option<T -> Result<R, E>>,
                                        index: nat)
    requires Fire(items, process, preferSingle).Success?
    requires !(|items| == 1 && preferSingle.Some?) ==> |process(items).value| == |items|
    requires index < |items|
    ensures Deliver(Fire(items, process, preferSingle), index)
         == Success(Some(Fire(items, process, preferSingle).value[index]))
  {
  }

  /** The lone caller of a one-item batch with a single-item processor
      receives exactly that processor's outcome for its item. */
  lemma SingleCallerGetsPreferredOutcome<T, R, E>(t: T,
                                                  process: seq<T> -> Result<seq<R>, E>,
                                                  single: T -> Result<R, E>)
    ensures match single(t)
      case Success(v) => Deliver(Fire([t], process, Some(single)), 0) == Success(Some(v))
      case Failure(e) => Deliver(Fire([t], process, Some(single)), 0) == Failure(e)
  {
  }

  /** The single-item path is only a shortcut: when the single-item
      processor agrees with the batch processor on one-element lists, firing
      with it gives the same outcome as firing without it. */
  lemma SingleShortcutIsTransparent<T, R, E>(items: seq<T>,
                                             process: seq<T> -> Result<seq<R>, E>,
                                             single: T -> Result<R, E>)
    requires forall x: T :: process([x]) == (match single(x)
                                                case Success(v) => Success([v])
                                                case Failure(e) => Failure(e))
    ensures Fire(items, process, Some(single)) == Fire(items, process, None)
  {
    if |items| == 1 {
      assert items == [items[0]];
    }
  }
}
