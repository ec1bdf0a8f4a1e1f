/** Every step leaves the VM of a waiting create job untouched. */
module PanelFreshKept {
  import opened Wrappers
  import opened Entities
  import opened Panel
  import opened PanelFrames
  import opened PanelTickets
  import opened PanelRows
  import opened PanelRowsKept

  /** A new job for a VM that no create job waits for. */
  lemma AppendKeepsFresh(vms: seq<Vm>, jobs: seq<Job>, handlers: seq<Handler>, phase: Phase, job: Job)
    requires FreshOk(vms, jobs, handlers, phase)
    requires job.kind != CreateVm
    requires forall j :: 0 <= j < |jobs| && Waiting(jobs[j]) ==> jobs[j].vm != job.vm
    ensures FreshOk(vms, jobs + [job], handlers, phase)
  {
  }

  /** Handlers that refer to fewer VMs. */
  lemma FewerHandlersKeepFresh(vms: seq<Vm>, jobs: seq<Job>, handlers: seq<Handler>, phase: Phase, i: nat, h: Handler)
    requires FreshOk(vms, jobs, handlers, phase) && i < |handlers|
    requires HandlerVm(h) == None || HandlerVm(h) == HandlerVm(handlers[i])
    ensures FreshOk(vms, jobs, handlers[i := h], phase)
  {
  }

  /** A write to a VM that no create job waits for. */
  lemma WriteKeepsFresh(vms: seq<Vm>, jobs: seq<Job>, handlers: seq<Handler>, phase: Phase, v: VmRow, vm: Vm)
    requires FreshOk(vms, jobs, handlers, phase) && v < |vms|
    requires forall j :: 0 <= j < |jobs| && Waiting(jobs[j]) ==> jobs[j].vm != v
    ensures FreshOk(vms[v := vm], jobs, handlers, phase)
  {
  }

  /** A job that was not waiting keeps its type and VM, or a waiting one starts. */
  lemma UpdateKeepsFresh(vms: seq<Vm>, jobs: seq<Job>, handlers: seq<Handler>, phase: Phase, j: JobRow, job: Job)
    requires FreshOk(vms, jobs, handlers, phase) && j < |jobs|
    requires job.vm == jobs[j].vm && !Waiting(job)
    ensures FreshOk(vms, jobs[j := job], handlers, phase)
  {
  }

  lemma InsertVmKeepsFresh(s: State, i: nat)
    requires Tickets(s) && Fresh(s) && CanAdvance(s, i) && s.handlers[i].Rechecked?
    ensures Fresh(AdvanceHandler(s, i))
  {
  }

  lemma AdvanceKeepsFresh(s: State, i: nat)
    requires Tickets(s) && Rows(s) && Fresh(s) && CanAdvance(s, i)
    ensures Fresh(AdvanceHandler(s, i))
  {
    var s' := AdvanceHandler(s, i);
    match s.handlers[i]
    case Rechecked(_, _) => InsertVmKeepsFresh(s, i);
    case Guarded(kind, v) =>
      AppendKeepsFresh(s.vms, s.jobs, s.handlers, s.phase, Job(kind, JobQueued, v, None));
      FewerHandlersKeepFresh(s.vms, s'.jobs, s.handlers, s.phase, i, s'.handlers[i]);
    case SshReset(v) =>
      AppendKeepsFresh(s.vms, s.jobs, s.handlers, s.phase, Job(SshCheck, JobQueued, v, None));
      FewerHandlersKeepFresh(s.vms, s'.jobs, s.handlers, s.phase, i, s'.handlers[i]);
    case SshGuarded(v, _) =>
      WriteKeepsFresh(s.vms, s.jobs, s.handlers, s.phase, v, s'.vms[v]);
      FewerHandlersKeepFresh(s'.vms, s.jobs, s.handlers, s.phase, i, s'.handlers[i]);
    case AwaitLock(_, _) => FewerHandlersKeepFresh(s.vms, s.jobs, s.handlers, s.phase, i, s'.handlers[i]);
    case Locked(_, _) => FewerHandlersKeepFresh(s.vms, s.jobs, s.handlers, s.phase, i, s'.handlers[i]);
    case Inserted(_) => FewerHandlersKeepFresh(s.vms, s.jobs, s.handlers, s.phase, i, s'.handlers[i]);
    case Enqueueing(_) => FewerHandlersKeepFresh(s.vms, s.jobs, s.handlers, s.phase, i, s'.handlers[i]);
  }

  lemma WorkKeepsFresh(s: State, a: Answer)
    requires Tickets(s) && Rows(s) && Fresh(s) && CanWork(s, a)
    ensures Fresh(DoWork(s, a))
  {
    var l := LocalOf(s);
    var s' := DoWork(s, a);
    if !EdgePlace(l.at) { BodyFrame(l, a); }
    if l.at.Spawn? {
      AppendKeepsFresh(s.vms, s.jobs, s.handlers, s.phase, Job(SshCheck, JobQueued, l.v, None));
    } else if !l.at.PutSpawned? {
      UpdateKeepsFresh(s.vms, s.jobs, s.handlers, s.phase, s.worker.job, s'.jobs[s.worker.job]);
      WriteKeepsFresh(s.vms, s'.jobs, s.handlers, s.phase, l.v, s'.vms[l.v]);
    }
  }

  lemma RequestKeepsFresh(s: State, step: Step)
    requires Tickets(s) && Fresh(s) && Enabled(s, step)
    requires step.RequestCreate? || step.RequestJob? || step.RequestSshCheck?
    ensures Fresh(Apply(s, step))
  {
  }

  lemma StartupKeepsFresh(s: State, step: Step)
    requires Tickets(s) && Fresh(s) && Enabled(s, step)
    requires step.Requeue? || step.CommitRequeue?
    ensures Fresh(Apply(s, step))
  {
  }

  lemma MarkKeepsFresh(s: State)
    requires Tickets(s) && Fresh(s) && s.phase.Down?
    ensures Fresh(DoMark(s))
  {
    AdoptedRows(s.vms, s.jobs, |s.jobs|);
  }

  lemma StepKeepsFresh(s: State, step: Step)
    requires Tickets(s) && Rows(s) && Fresh(s) && Enabled(s, step)
    ensures Fresh(Apply(s, step))
  {
    match step
    case Advance(i) => AdvanceKeepsFresh(s, i);
    case Abandon(i) => FewerHandlersKeepFresh(s.vms, s.jobs, s.handlers, s.phase, i, Done);
    case Work(a) => WorkKeepsFresh(s, a);
    case MarkOrphans => MarkKeepsFresh(s);
    case Requeue(_) => StartupKeepsFresh(s, step);
    case CommitRequeue => StartupKeepsFresh(s, step);
    case Take =>
    case Vanish(_) =>
    case Crash =>
    case _ => RequestKeepsFresh(s, step);
  }
}
