/** What holds of the committed rows in every reachable state: targets and recorded
    guests agree, an SSH-ready VM has an address, a VM waiting for its create job is
    untouched, and no live VM is stuck in an interrupted status. */
module PanelRows {
  import opened Wrappers
  import opened Entities
  import opened Panel
  import opened PanelFrames
  import opened PanelLocal

  function HandlerVm(h: Handler): Option<VmRow> {
    match h
    case Guarded(_, v) => Some(v)
    case SshGuarded(v, _) => Some(v)
    case SshReset(v) => Some(v)
    case _ => None
  }

  /** Only a job that has been started can carry a target. */
  ghost predicate NoEarlyTarget(jobs: seq<Job>) {
    forall j :: 0 <= j < |jobs| && jobs[j].status == JobQueued ==> jobs[j].target == None
  }

  /** A running job's clone is recorded by its VM row, or the row records nothing. */
  ghost predicate TargetOk(vms: seq<Vm>, jobs: seq<Job>) {
    forall j :: 0 <= j < |jobs| && jobs[j].status == JobRunning && jobs[j].target.Some? && jobs[j].vm < |vms| ==>
      vms[jobs[j].vm].vmid == None || vms[jobs[j].vm].vmid == jobs[j].target
  }

  ghost predicate SshImpliesIp(vms: seq<Vm>) {
    forall v :: 0 <= v < |vms| && vms[v].ssh == SshReady ==> vms[v].ip.Some?
  }

  ghost predicate HandlersGuarded(handlers: seq<Handler>) {
    forall i :: 0 <= i < |handlers| && handlers[i].Guarded? ==>
      handlers[i].kind != CreateVm && handlers[i].kind != SshCheck
  }

  ghost predicate Rows(s: State) {
    && WorkerOk(s)
    && NoEarlyTarget(s.jobs)
    && TargetOk(s.vms, s.jobs)
    && SshImpliesIp(s.vms)
    && HandlersGuarded(s.handlers)
    && (s.worker.Busy? ==> LocalOk(LocalOf(s)))
  }

  /** A create job that still waits. */
  predicate Waiting(job: Job) {
    job.kind == CreateVm && job.status == JobQueued
  }

  /** The VM of a waiting create job has no guest, no other job and no handler. */
  ghost predicate FreshOk(vms: seq<Vm>, jobs: seq<Job>, handlers: seq<Handler>, phase: Phase) {
    && (forall j :: 0 <= j < |jobs| && Waiting(jobs[j]) && jobs[j].vm < |vms| ==>
          var vm := vms[jobs[j].vm];
          && vm.vmid == None && !vm.deleted
          && (phase.Serving? ==> vm.status == Creating))
    && (forall j, k {:trigger jobs[j], jobs[k]} :: 0 <= j < |jobs| && 0 <= k < |jobs| && j != k ==>
          Waiting(jobs[j]) ==> jobs[k].vm != jobs[j].vm)
    && (forall j, i {:trigger jobs[j], handlers[i]} :: 0 <= j < |jobs| && 0 <= i < |handlers| ==>
          Waiting(jobs[j]) ==> HandlerVm(handlers[i]) != Some(jobs[j].vm))
  }

  ghost predicate Fresh(s: State) {
    FreshOk(s.vms, s.jobs, s.handlers, s.phase)
  }

  ghost predicate CreateWaits(jobs: seq<Job>, v: VmRow) {
    exists j :: 0 <= j < |jobs| && Waiting(jobs[j]) && jobs[j].vm == v
  }

  /** A live VM in an interrupted status belongs to the running job, or is being created
      by a job that still waits. */
  ghost predicate NoStuck(vms: seq<Vm>, jobs: seq<Job>, w: Worker, phase: Phase) {
    !phase.Down? ==>
      forall v :: 0 <= v < |vms| && !Steady(vms[v]) ==>
        || (w.Busy? && InBody(w.at) && w.job < |jobs| && jobs[w.job].vm == v)
        || (phase.Serving? && vms[v].status == Creating && CreateWaits(jobs, v))
  }

  ghost predicate Unstuck(s: State) {
    NoStuck(s.vms, s.jobs, s.worker, s.phase)
  }
}
