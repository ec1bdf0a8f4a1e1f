/** No job is lost: a job committed as queued stays reachable until it is started or failed. */
module PanelNoLoss {
  import opened Wrappers
  import opened Entities
  import opened Panel
  import opened PanelFrames
  import opened PanelTickets

  lemma AdvanceKeepsNoLoss(s: State, i: nat)
    requires Tickets(s) && NoLoss(s) && CanAdvance(s, i)
    ensures NoLoss(AdvanceHandler(s, i))
  {
    var s' := AdvanceHandler(s, i);
    assert HandlerTicket(s'.handlers[i]) == HandlerTicket(s'.handlers[i]);
    forall j: JobRow | IsQueued(s'.jobs, j)
      ensures HasTicket(s'.queue, s'.worker, s'.handlers, s'.phase, j)
    {
      if IsQueued(s.jobs, j) && j !in s.queue && HandlerTicket(s.handlers[i]) != Some(j) && WorkerTicket(s.worker) != Some(j) {
        var k :| 0 <= k < |s.handlers| && HandlerTicket(s.handlers[k]) == Some(j);
        assert s'.handlers[k] == s.handlers[k];
      }
    }
  }

  lemma WorkKeepsNoLoss(s: State, a: Answer)
    requires Tickets(s) && NoLoss(s) && CanWork(s, a)
    ensures NoLoss(DoWork(s, a))
  {
    var s' := DoWork(s, a);
    if !EdgePlace(s.worker.at) { BodyFrame(LocalOf(s), a); }
    forall j: JobRow | IsQueued(s'.jobs, j)
      ensures HasTicket(s'.queue, s'.worker, s'.handlers, s'.phase, j)
    {
      assert j < |s.jobs| ==> IsQueued(s.jobs, j);
    }
  }

  /** Requests and abandoned handlers touch no ticket. */
  lemma RequestKeepsNoLoss(s: State, step: Step)
    requires Tickets(s) && NoLoss(s) && Enabled(s, step)
    requires step.RequestCreate? || step.RequestJob? || step.RequestSshCheck? || step.Abandon?
    ensures NoLoss(Apply(s, step))
  {
    var s' := Apply(s, step);
    forall j: JobRow | IsQueued(s'.jobs, j)
      ensures HasTicket(s'.queue, s'.worker, s'.handlers, s'.phase, j)
    {
      assert IsQueued(s.jobs, j);
      if j !in s.queue && WorkerTicket(s.worker) != Some(j) {
        var k :| 0 <= k < |s.handlers| && HandlerTicket(s.handlers[k]) == Some(j);
        assert HandlerTicket(s'.handlers[k]) == Some(j);
      }
    }
  }

  lemma TakeKeepsNoLoss(s: State)
    requires Tickets(s) && NoLoss(s) && CanTake(s)
    ensures NoLoss(TakeJob(s))
  {
    assert s.queue == [s.queue[0]] + s.queue[1..];
  }

  lemma StepKeepsNoLoss(s: State, step: Step)
    requires Tickets(s) && NoLoss(s) && Enabled(s, step)
    ensures NoLoss(Apply(s, step))
  {
    match step
    case Advance(i) => AdvanceKeepsNoLoss(s, i);
    case Work(a) => WorkKeepsNoLoss(s, a);
    case Take => TakeKeepsNoLoss(s);
    case Vanish(_) =>
    case Crash =>
    case MarkOrphans =>
    case Requeue(_) =>
    case CommitRequeue =>
      forall j: JobRow | IsQueued(Apply(s, step).jobs, j) ensures IsQueued(s.jobs, j) {}
    case _ => RequestKeepsNoLoss(s, step);
  }
}
