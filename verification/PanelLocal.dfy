/** What holds at each place of the worker, about its own job and VM rows. */
module PanelLocal {
  import opened Wrappers
  import opened Entities
  import opened Panel

  /** The VM is not left in an interrupted status; a deleted row no longer matters. */
  predicate Steady(vm: Vm) {
    vm.deleted || !Transient(vm.status)
  }

  /** Which job types reach which place. */
  predicate KindOk(l: Local) {
    && (DestroyPlace(l.at) ==> l.job.kind == ReinstallVm || l.job.kind == DeleteVm)
    && (ClonePlace(l.at) || SetupPlace(l.at) ==> NeedsPassword(l.job.kind))
    && (l.at.PowerCall? || l.at.PowerIp? ==> IsPower(l.job.kind))
    && (l.at.PowerIp? ==> l.job.kind != StopVm)
    && (l.at.Probe? ==> l.job.kind == SshCheck)
    && (l.at.Spawn? || l.at.PutSpawned? ==> SpawnsCheck(l.job.kind))
  }

  /** The places before the commit of target_vmid. */
  predicate BeforeTarget(at: Place) {
    || at.Loaded? || at.Begin? || DestroyPlace(at) || PowerPlace(at)
    || at.Provision? || at.Clone? || at.Cloned?
  }

  /** How the recorded VMID, the job's target and the guests agree. */
  predicate GuestOk(l: Local) {
    && (l.job.target.Some? ==> l.vm.vmid == None || l.vm.vmid == l.job.target)
    && (BeforeTarget(l.at) ==> l.job.target == None)
    && (DestroyPlace(l.at) && !l.at.Destroyed? ==> l.vm.vmid.Some?)
    && (l.at.Destroyed? && l.vm.vmid.Some? ==> l.vm.vmid.value !in l.guests)
    && (ClonePlace(l.at) ==> l.vm.vmid == None)
    && ((l.at.Loaded? || l.at.Begin?) && l.job.kind == CreateVm ==> l.vm.vmid == None)
    && (l.at.AwaitClone? ==> l.job.target == Some(l.at.guest))
    && (SetupPlace(l.at) ==> l.vm.vmid == Some(l.at.guest) && l.job.target == Some(l.at.guest))
    && (l.at.Finish? && l.job.target.Some? ==> l.vm.vmid == l.job.target)
  }

  /** The committed ssh_status is the session's, or an API re-check has reset it. */
  predicate SshOk(l: Local) {
    && (l.vm.ssh == l.ssh || l.vm.ssh == SshPending)
    && (l.vm.ssh == SshReady ==> l.vm.ip.Some?)
    && (DestroyPlace(l.at) && l.job.kind == ReinstallVm ==> l.vm.ssh == SshPending)
    && (l.at.Probe? ==> l.vm.ip.Some?)
  }

  predicate StatusOk(l: Local) {
    && (l.job.kind == SshCheck ==> !l.at.Failing? && Steady(l.vm))
    && (l.at.Loaded? && l.job.kind != CreateVm ==> Steady(l.vm))
    && (l.at.AwaitIp? || l.at.ResetIdentity? ==> Steady(l.vm))
    && (l.at.Finish? || l.at.Spawn? || l.at.PutSpawned? ==> Steady(l.vm))
  }

  predicate LocalOk(l: Local) {
    KindOk(l) && GuestOk(l) && SshOk(l) && StatusOk(l)
  }

  lemma BeginKeepsLocal(l: Local, a: Answer)
    requires LocalOk(l) && l.at.Begin? && CanAnswer(l, a)
    ensures LocalOk(DoBegin(l, a))
  {
  }

  lemma DestroyKeepsLocal(l: Local, a: Answer)
    requires LocalOk(l) && DestroyPlace(l.at) && CanAnswer(l, a)
    ensures LocalOk(DoDestroy(l, a))
  {
  }

  lemma CloneKeepsLocal(l: Local, a: Answer)
    requires LocalOk(l) && ClonePlace(l.at) && CanAnswer(l, a)
    ensures LocalOk(DoClone(l, a))
  {
  }

  lemma SetupKeepsLocal(l: Local, a: Answer)
    requires LocalOk(l) && SetupPlace(l.at) && CanAnswer(l, a)
    ensures LocalOk(DoSetup(l, a))
  {
  }

  lemma PowerKeepsLocal(l: Local, a: Answer)
    requires LocalOk(l) && PowerPlace(l.at) && CanAnswer(l, a)
    ensures LocalOk(DoPower(l, a))
  {
  }

  lemma BodyKeepsLocal(l: Local, a: Answer)
    requires LocalOk(l) && !EdgePlace(l.at) && CanAnswer(l, a)
    ensures LocalOk(DoBody(l, a))
  {
    if l.at.Begin? { BeginKeepsLocal(l, a); }
    else if DestroyPlace(l.at) { DestroyKeepsLocal(l, a); }
    else if ClonePlace(l.at) { CloneKeepsLocal(l, a); }
    else if SetupPlace(l.at) { SetupKeepsLocal(l, a); }
    else { PowerKeepsLocal(l, a); }
  }

  lemma StartKeepsLocal(l: Local)
    requires LocalOk(l) && l.at.Loaded?
    ensures LocalOk(l.(job := l.job.(status := JobRunning), at := Begin))
  {
  }

  lemma SuccessKeepsLocal(l: Local)
    requires LocalOk(l) && l.at.Finish? && SpawnsCheck(l.job.kind)
    ensures LocalOk(l.(job := l.job.(status := JobSuccess), at := Spawn))
  {
  }

  /** An API re-check may reset ssh_status under the worker's feet. */
  lemma ResetKeepsLocal(l: Local)
    requires LocalOk(l)
    ensures LocalOk(l.(vm := l.vm.(ssh := SshPending)))
  {
  }
}
