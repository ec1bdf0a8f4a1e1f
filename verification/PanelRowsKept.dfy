/** Every step keeps Rows. */
module PanelRowsKept {
  import opened Wrappers
  import opened Entities
  import opened Panel
  import opened PanelFrames
  import opened PanelTickets
  import opened PanelLocal
  import opened PanelRows

  lemma BodyKeepsRows(s: State, a: Answer)
    requires Tickets(s) && Rows(s) && CanWork(s, a) && !EdgePlace(s.worker.at)
    ensures Rows(DoWork(s, a))
  {
    BodyFrame(LocalOf(s), a);
    BodyKeepsLocal(LocalOf(s), a);
    assert LocalOf(DoWork(s, a)) == DoBody(LocalOf(s), a);
  }

  lemma StartKeepsRows(s: State)
    requires Rows(s) && s.worker.Busy? && s.worker.at.Loaded?
    ensures Rows(DoEdge(s))
  {
    StartKeepsLocal(LocalOf(s));
    assert LocalOf(DoEdge(s)) == LocalOf(s).(job := LocalOf(s).job.(status := JobRunning), at := Begin);
  }

  lemma FinishKeepsRows(s: State)
    requires Rows(s) && s.worker.Busy? && s.worker.at.Finish?
    ensures Rows(DoEdge(s))
  {
    if SpawnsCheck(LocalOf(s).job.kind) {
      SuccessKeepsLocal(LocalOf(s));
      assert LocalOf(DoEdge(s)) == LocalOf(s).(job := LocalOf(s).job.(status := JobSuccess), at := Spawn);
    }
  }

  lemma FailKeepsRows(s: State)
    requires Rows(s) && s.worker.Busy? && s.worker.at.Failing?
    ensures Rows(DoEdge(s))
  {
  }

  lemma SpawnKeepsRows(s: State)
    requires Rows(s) && s.worker.Busy? && (s.worker.at.Spawn? || s.worker.at.PutSpawned?)
    ensures Rows(DoEdge(s))
  {
    if s.worker.at.Spawn? {
      assert LocalOf(DoEdge(s)) == Goto(LocalOf(s), PutSpawned(|s.jobs|));
    }
  }

  lemma WorkKeepsRows(s: State, a: Answer)
    requires Tickets(s) && Rows(s) && CanWork(s, a)
    ensures Rows(DoWork(s, a))
  {
    match s.worker.at
    case Loaded => StartKeepsRows(s);
    case Finish => FinishKeepsRows(s);
    case Failing => FailKeepsRows(s);
    case Spawn => SpawnKeepsRows(s);
    case PutSpawned(_) => SpawnKeepsRows(s);
    case _ => BodyKeepsRows(s, a);
  }

  /** When a job is popped, its VM is idle: nothing else can have left it interrupted. */
  lemma TakeKeepsRows(s: State)
    requires Tickets(s) && Rows(s) && Fresh(s) && Unstuck(s) && CanTake(s)
    ensures Rows(TakeJob(s))
  {
  }

  lemma ResetSshKeepsRows(s: State, i: nat)
    requires Rows(s) && HandlerRefs(|s.vms|, s.handlers) && CanAdvance(s, i) && s.handlers[i].SshGuarded?
    ensures Rows(AdvanceHandler(s, i))
  {
    var s' := AdvanceHandler(s, i);
    if s.worker.Busy? {
      var l := LocalOf(s);
      ResetKeepsLocal(l);
      assert LocalOf(s') == l || LocalOf(s') == l.(vm := l.vm.(ssh := SshPending));
    }
  }

  lemma InsertKeepsRows(s: State, i: nat)
    requires Rows(s) && HandlerRefs(|s.vms|, s.handlers) && CanAdvance(s, i)
    requires s.handlers[i].Rechecked? || s.handlers[i].Guarded? || s.handlers[i].SshReset?
    ensures Rows(AdvanceHandler(s, i))
  {
    if s.worker.Busy? { assert LocalOf(AdvanceHandler(s, i)) == LocalOf(s); }
  }

  /** Passing the lock around and enqueueing write no row. */
  lemma PassKeepsRows(s: State, i: nat)
    requires Rows(s) && CanAdvance(s, i)
    requires !s.handlers[i].Rechecked? && !s.handlers[i].Guarded?
    requires !s.handlers[i].SshGuarded? && !s.handlers[i].SshReset?
    ensures Rows(AdvanceHandler(s, i))
  {
    if s.worker.Busy? { assert LocalOf(AdvanceHandler(s, i)) == LocalOf(s); }
  }

  lemma AdvanceKeepsRows(s: State, i: nat)
    requires Rows(s) && HandlerRefs(|s.vms|, s.handlers) && CanAdvance(s, i)
    ensures Rows(AdvanceHandler(s, i))
  {
    match s.handlers[i]
    case Rechecked(_, _) => InsertKeepsRows(s, i);
    case Guarded(_, _) => InsertKeepsRows(s, i);
    case SshReset(_) => InsertKeepsRows(s, i);
    case SshGuarded(_, _) => ResetSshKeepsRows(s, i);
    case _ => PassKeepsRows(s, i);
  }

  lemma RequestKeepsRows(s: State, step: Step)
    requires Tickets(s) && Rows(s) && Enabled(s, step)
    requires step.RequestCreate? || step.RequestJob? || step.RequestSshCheck? || step.Abandon?
    ensures Rows(Apply(s, step))
  {
  }

  lemma OutsideKeepsRows(s: State, step: Step)
    requires Tickets(s) && Rows(s) && Enabled(s, step) && (step.Vanish? || step.Crash?)
    ensures Rows(Apply(s, step))
  {
  }

  /** Startup hands a clone over only to a row that recorded none. */
  lemma AdoptedRows(vms: seq<Vm>, jobs: seq<Job>, n: nat)
    requires n <= |jobs|
    ensures forall v :: 0 <= v < |vms| ==>
      Adopted(vms, jobs, n)[v] == vms[v].(vmid := Adopted(vms, jobs, n)[v].vmid)
    ensures forall v :: 0 <= v < |vms| && Adopted(vms, jobs, n)[v].vmid != vms[v].vmid ==>
      && vms[v].vmid == None
      && exists j :: 0 <= j < n && jobs[j].status == JobRunning && jobs[j].vm == v
                     && jobs[j].target.Some? && jobs[j].target == Adopted(vms, jobs, n)[v].vmid
  {
  }

  lemma MarkKeepsRows(s: State)
    requires Rows(s) && PhaseOk(s) && s.phase.Down?
    ensures Rows(DoMark(s))
  {
    AdoptedRows(s.vms, s.jobs, |s.jobs|);
  }

  lemma RequeueKeepsRows(s: State, step: Step)
    requires Tickets(s) && Rows(s) && Enabled(s, step) && (step.Requeue? || step.CommitRequeue?)
    ensures Rows(Apply(s, step))
  {
    var s' := Apply(s, step);
    if step.CommitRequeue? && s.worker.Busy? {
      assert LocalOf(s') == LocalOf(s);
    }
  }

  lemma StepKeepsRows(s: State, step: Step)
    requires Tickets(s) && Rows(s) && Fresh(s) && Unstuck(s) && Enabled(s, step)
    ensures Rows(Apply(s, step))
  {
    match step
    case Advance(i) => AdvanceKeepsRows(s, i);
    case Take => TakeKeepsRows(s);
    case Work(a) => WorkKeepsRows(s, a);
    case Vanish(_) => OutsideKeepsRows(s, step);
    case Crash => OutsideKeepsRows(s, step);
    case MarkOrphans => MarkKeepsRows(s);
    case Requeue(_) => RequeueKeepsRows(s, step);
    case CommitRequeue => RequeueKeepsRows(s, step);
    case _ => RequestKeepsRows(s, step);
  }
}
