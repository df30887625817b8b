/**
  Concrete runs of the coordinator (with the timestamps `create` is meant
  to record, see module AsWritten): quiet period, minimum window, count
  ceiling and overshoot, replayed event by event.
 */
module Scenarios {
  import opened Wrappers
  import opened Policy
  import opened Batcher
  import opened Trace
  import Delay

  /** Quiet period 10 ms, maximum window 100 ms: A at 0 and B at 5 are
      still open at 14 and sealed together at 15, once 10 ms have passed
      after B. */
  lemma QuietPeriodSealsAt15()
    ensures var cfg := Config(10, 0, 100, None);
      var h := Run(cfg, [Submit(1, 0), Submit(2, 5), WakeUp(5), WakeUp(14), WakeUp(15)]);
      && h.sealed == [[1, 2]]
      && h.state.pending.None?
      && h.tickets == [Ticket(0, 0), Ticket(0, 1)]
  {
    var cfg := Config(10, 0, 100, None);
    var e1, e2, e3, e4, e5 := Submit(1, 0), Submit(2, 5), WakeUp(5), WakeUp(14), WakeUp(15);
    var h1 := Apply(History(Init(cfg), [], [], []), e1);
    assert h1.sealed == [] && h1.state.pending.value.items == [1] && h1.state.pending.value.startTime == 0;
    var h2 := Apply(h1, e2);
    assert h2.sealed == [] && h2.state.pending.value.items == [1, 2];
    assert h2.state.pending.value.startTime == 0 && h2.state.pending.value.lastTime == 5;
    assert h2.state.pending.value.wait.settled == Some(Delay.Interrupted);
    assert h2.tickets == [Ticket(0, 0), Ticket(0, 1)];
    var h3 := Apply(h2, e3);
    assert h3.sealed == [] && h3.state.pending.value.items == [1, 2];
    assert h3.state.pending.value.wait.deadline == 15 && h3.state.pending.value.wait.settled.None?;
    var h4 := Apply(h3, e4);
    assert h4 == h3;
    var h5 := Apply(h4, e5);
    assert h5.sealed == [[1, 2]] && h5.state.pending.None?;
    RunSnoc(cfg, [], e1);
    assert [] + [e1] == [e1];
    RunSnoc(cfg, [e1], e2);
    assert [e1] + [e2] == [e1, e2];
    RunSnoc(cfg, [e1, e2], e3);
    assert [e1, e2] + [e3] == [e1, e2, e3];
    RunSnoc(cfg, [e1, e2, e3], e4);
    assert [e1, e2, e3] + [e4] == [e1, e2, e3, e4];
    RunSnoc(cfg, [e1, e2, e3, e4], e5);
    assert [e1, e2, e3, e4] + [e5] == [e1, e2, e3, e4, e5];
  }

  /** Continuing that run, C arriving at 16, after the seal, opens a new
      batch on its own: batch 1, index 0. */
  lemma QuietPeriodSealsPair()
    ensures var cfg := Config(10, 0, 100, None);
      var h := Run(cfg, [Submit(1, 0), Submit(2, 5), WakeUp(5), WakeUp(14), WakeUp(15), Submit(3, 16)]);
      && h.sealed == [[1, 2]]
      && OpenItems(h.state) == [3]
      && h.tickets == [Ticket(0, 0), Ticket(0, 1), Ticket(1, 0)]
  {
    var cfg := Config(10, 0, 100, None);
    var prefix := [Submit(1, 0), Submit(2, 5), WakeUp(5), WakeUp(14), WakeUp(15)];
    QuietPeriodSealsAt15();
    var h5 := Run(cfg, prefix);
    RunConsistent(cfg, prefix);
    var h6 := Apply(h5, Submit(3, 16));
    assert OpenItems(h6.state) == [3] && h6.sealed == [[1, 2]];
    assert h6.tickets == h5.tickets + [Ticket(1, 0)];
    RunSnoc(cfg, prefix, Submit(3, 16));
    assert prefix + [Submit(3, 16)] == [Submit(1, 0), Submit(2, 5), WakeUp(5), WakeUp(14), WakeUp(15), Submit(3, 16)];
  }


  /** Same policy, but C arrives at 12, before the quiet period after B has
      run out: C joins the open batch instead of starting a new one. */
  lemma LateArrivalJoinsOpenBatch()
    ensures var cfg := Config(10, 0, 100, None);
      var h := Run(cfg, [Submit(1, 0), Submit(2, 5), WakeUp(5), Submit(3, 12), WakeUp(12), WakeUp(22)]);
      && h.sealed == [[1, 2, 3]]
      && OpenItems(h.state) == []
  {
    var cfg := Config(10, 0, 100, None);
    var e1, e2, e3, e4, e5, e6 := Submit(1, 0), Submit(2, 5), WakeUp(5), Submit(3, 12), WakeUp(12), WakeUp(22);
    var h1 := Apply(History(Init(cfg), [], [], []), e1);
    assert h1.sealed == [] && h1.state.pending.value.items == [1] && h1.state.pending.value.startTime == 0;
    var h2 := Apply(h1, e2);
    assert h2.sealed == [] && h2.state.pending.value.items == [1, 2];
    assert h2.state.pending.value.startTime == 0 && h2.state.pending.value.lastTime == 5;
    assert h2.state.pending.value.wait.settled == Some(Delay.Interrupted);
    var h3 := Apply(h2, e3);
    assert h3.sealed == [] && h3.state.pending.value.items == [1, 2];
    assert h3.state.pending.value.wait.settled.None?;
    var h4 := Apply(h3, e4);
    assert h4.sealed == [] && h4.state.pending.value.items == [1, 2, 3];
    assert h4.state.pending.value.startTime == 0 && h4.state.pending.value.lastTime == 12;
    assert h4.state.pending.value.wait.settled == Some(Delay.Interrupted);
    var h5 := Apply(h4, e5);
    assert h5.sealed == [] && h5.state.pending.value.items == [1, 2, 3];
    assert h5.state.pending.value.wait.deadline == 22 && h5.state.pending.value.wait.settled.None?;
    var h6 := Apply(h5, e6);
    assert h6.sealed == [[1, 2, 3]] && h6.state.pending.None?;
    RunSnoc(cfg, [], e1);
    assert [] + [e1] == [e1];
    RunSnoc(cfg, [e1], e2);
    assert [e1] + [e2] == [e1, e2];
    RunSnoc(cfg, [e1, e2], e3);
    assert [e1, e2] + [e3] == [e1, e2, e3];
    RunSnoc(cfg, [e1, e2, e3], e4);
    assert [e1, e2, e3] + [e4] == [e1, e2, e3, e4];
    RunSnoc(cfg, [e1, e2, e3, e4], e5);
    assert [e1, e2, e3, e4] + [e5] == [e1, e2, e3, e4, e5];
    RunSnoc(cfg, [e1, e2, e3, e4, e5], e6);
    assert [e1, e2, e3, e4, e5] + [e6] == [e1, e2, e3, e4, e5, e6];
  }

  /** Count ceiling 2: once the loop sees two items it seals them without
      waiting, and the third item opens a new batch. */
  lemma CountCeilingSealsAtOnce()
    ensures var cfg := Config(1, 0, 1000, Some(2));
      var h := Run(cfg, [Submit(1, 0), Submit(2, 0), WakeUp(0), Submit(3, 0)]);
      && h.sealed == [[1, 2]]
      && OpenItems(h.state) == [3]
  {
    var cfg := Config(1, 0, 1000, Some(2));
    var e1, e2, e3, e4 := Submit(1, 0), Submit(2, 0), WakeUp(0), Submit(3, 0);
    var h1 := Apply(History(Init(cfg), [], [], []), e1);
    assert h1.sealed == [] && h1.state.pending.value.items == [1];
    var h2 := Apply(h1, e2);
    assert h2.sealed == [] && h2.state.pending.value.items == [1, 2];
    assert h2.state.pending.value.wait.settled == Some(Delay.Interrupted);
    var h3 := Apply(h2, e3);
    assert h3.sealed == [[1, 2]] && h3.state.pending.None?;
    var h4 := Apply(h3, e4);
    assert h4.sealed == [[1, 2]] && h4.state.pending.value.items == [3];
    RunSnoc(cfg, [], e1);
    assert [] + [e1] == [e1];
    RunSnoc(cfg, [e1], e2);
    assert [e1] + [e2] == [e1, e2];
    RunSnoc(cfg, [e1, e2], e3);
    assert [e1, e2] + [e3] == [e1, e2, e3];
    RunSnoc(cfg, [e1, e2, e3], e4);
    assert [e1, e2, e3] + [e4] == [e1, e2, e3, e4];
  }

  /** Count ceiling 2, but three items land before the loop wakes: the
      ceiling is only checked when the loop runs, so the batch overshoots. */
  lemma CountCeilingCanOvershoot()
    ensures var cfg := Config(1, 0, 1000, Some(2));
      var h := Run(cfg, [Submit(1, 0), Submit(2, 0), Submit(3, 0), WakeUp(0)]);
      && h.sealed == [[1, 2, 3]]
  {
    var cfg := Config(1, 0, 1000, Some(2));
    var e1, e2, e3, e4 := Submit(1, 0), Submit(2, 0), Submit(3, 0), WakeUp(0);
    var h1 := Apply(History(Init(cfg), [], [], []), e1);
    assert h1.sealed == [] && h1.state.pending.value.items == [1];
    var h2 := Apply(h1, e2);
    assert h2.sealed == [] && h2.state.pending.value.items == [1, 2];
    assert h2.state.pending.value.wait.settled == Some(Delay.Interrupted);
    var h3 := Apply(h2, e3);
    assert h3.sealed == [] && h3.state.pending.value.items == [1, 2, 3];
    assert h3.state.pending.value.wait.settled == Some(Delay.Interrupted);
    var h4 := Apply(h3, e4);
    assert h4.sealed == [[1, 2, 3]];
    RunSnoc(cfg, [], e1);
    assert [] + [e1] == [e1];
    RunSnoc(cfg, [e1], e2);
    assert [e1] + [e2] == [e1, e2];
    RunSnoc(cfg, [e1, e2], e3);
    assert [e1, e2] + [e3] == [e1, e2, e3];
    RunSnoc(cfg, [e1, e2, e3], e4);
    assert [e1, e2, e3] + [e4] == [e1, e2, e3, e4];
  }

  /** Minimum window 50 ms, quiet period 1 ms: a lone item is not sealed at
      1 ms nor at 49 ms, but at 50 ms. */
  lemma MinWindowHoldsLoneItem()
    ensures var cfg := Config(1, 50, 1000, None);
      && Run(cfg, [Submit(1, 0), WakeUp(1), WakeUp(49)]).sealed == []
      && Run(cfg, [Submit(1, 0), WakeUp(1), WakeUp(50)]).sealed == [[1]]
  {
    var cfg := Config(1, 50, 1000, None);
    var e1, e2, e3, e3' := Submit(1, 0), WakeUp(1), WakeUp(49), WakeUp(50);
    var h1 := Apply(History(Init(cfg), [], [], []), e1);
    assert h1.sealed == [] && h1.state.pending.value.items == [1];
    assert h1.state.pending.value.wait.deadline == 50 && h1.state.pending.value.wait.settled.None?;
    var h2 := Apply(h1, e2);
    assert h2 == h1;
    assert Apply(h2, e3).sealed == [];
    assert Apply(h2, e3').sealed == [[1]];
    RunSnoc(cfg, [], e1);
    assert [] + [e1] == [e1];
    RunSnoc(cfg, [e1], e2);
    assert [e1] + [e2] == [e1, e2];
    RunSnoc(cfg, [e1, e2], e3);
    assert [e1, e2] + [e3] == [e1, e2, e3];
    RunSnoc(cfg, [e1, e2], e3');
    assert [e1, e2] + [e3'] == [e1, e2, e3'];
  }
}
