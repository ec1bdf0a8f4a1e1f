/** Every step keeps live VMs from being stuck in an interrupted status. */
module PanelStuckKept {
  import opened Entities
  import opened Panel
  import opened PanelFrames
  import opened PanelTickets
  import opened PanelLocal
  import opened PanelRows

  /** A waiting create job keeps waiting while its row keeps its type, status and VM. */
  lemma StillWaits(jobs: seq<Job>, jobs': seq<Job>, v: VmRow)
    requires |jobs| <= |jobs'| && CreateWaits(jobs, v)
    requires forall j :: 0 <= j < |jobs| && Waiting(jobs[j]) && jobs[j].vm == v ==>
      Waiting(jobs'[j]) && jobs'[j].vm == v
    ensures CreateWaits(jobs', v)
  {
    var j :| 0 <= j < |jobs| && Waiting(jobs[j]) && jobs[j].vm == v;
    assert Waiting(jobs'[j]) && jobs'[j].vm == v;
  }

  lemma AdvanceKeepsUnstuck(s: State, i: nat)
    requires Tickets(s) && Unstuck(s) && CanAdvance(s, i)
    ensures Unstuck(AdvanceHandler(s, i))
  {
    var s' := AdvanceHandler(s, i);
    forall v | 0 <= v < |s'.vms| && !Steady(s'.vms[v])
      ensures (s.worker.Busy? && InBody(s.worker.at) && s.jobs[s.worker.job].vm == v)
        || (s'.vms[v].status == Creating && CreateWaits(s'.jobs, v))
    {
      if v == |s.vms| {
        assert Waiting(s'.jobs[|s.jobs|]) && s'.jobs[|s.jobs|].vm == v;
      } else if CreateWaits(s.jobs, v) {
        StillWaits(s.jobs, s'.jobs, v);
      }
    }
  }

  lemma BodyKeepsUnstuck(s: State, a: Answer)
    requires Tickets(s) && Unstuck(s) && CanWork(s, a) && !EdgePlace(s.worker.at)
    ensures Unstuck(DoWork(s, a))
  {
    var s' := DoWork(s, a);
    BodyFrame(LocalOf(s), a);
    forall v | 0 <= v < |s.vms| && CreateWaits(s.jobs, v) ensures CreateWaits(s'.jobs, v) {
      StillWaits(s.jobs, s'.jobs, v);
    }
  }

  lemma EdgeKeepsUnstuck(s: State, a: Answer)
    requires Tickets(s) && Rows(s) && Unstuck(s) && CanWork(s, a) && EdgePlace(s.worker.at)
    ensures Unstuck(DoWork(s, a))
  {
    var s' := DoWork(s, a);
    forall v | 0 <= v < |s.vms| && CreateWaits(s.jobs, v)
      ensures CreateWaits(s'.jobs, v) || (s.worker.at.Loaded? && s.jobs[s.worker.job].vm == v)
    {
      if !s.worker.at.Loaded? || s.jobs[s.worker.job].vm != v { StillWaits(s.jobs, s'.jobs, v); }
    }
  }

  lemma MarkKeepsUnstuck(s: State)
    ensures Unstuck(DoMark(s))
  {
  }

  lemma RequeueKeepsUnstuck(s: State, step: Step)
    requires Tickets(s) && Unstuck(s) && Enabled(s, step)
    requires step.Requeue? || step.CommitRequeue?
    ensures Unstuck(Apply(s, step))
  {
  }

  lemma StepKeepsUnstuck(s: State, step: Step)
    requires Tickets(s) && Rows(s) && Unstuck(s) && Enabled(s, step)
    ensures Unstuck(Apply(s, step))
  {
    match step
    case Advance(i) => AdvanceKeepsUnstuck(s, i);
    case Work(a) => if EdgePlace(s.worker.at) { EdgeKeepsUnstuck(s, a); } else { BodyKeepsUnstuck(s, a); }
    case MarkOrphans => MarkKeepsUnstuck(s);
    case Requeue(_) => RequeueKeepsUnstuck(s, step);
    case CommitRequeue => RequeueKeepsUnstuck(s, step);
    case _ =>
  }
}
