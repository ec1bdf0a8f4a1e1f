/** The worker's job functions as the source writes them: methods that update the rows in
    place, wait for Proxmox, and return normally or raise
    (backend/app/services/lifecycle.py, backend/app/workers/inprocess.py). Each of them is
    proved to make exactly the worker steps of the step system. */
module JobSession {
  import opened Wrappers
  import opened Entities
  import opened Panel
  import opened PanelInterference
  import opened JobOutcome
  import opened PanelPaths

  /** The world answers truthfully: the n-th wait ends with something that can happen. */
  ghost predicate Truthful(answers: (nat, Local) -> Answer) {
    forall n: nat, l: Local :: !EdgePlace(l.at) ==> CanAnswer(l, answers(n, l))
  }

  /** What an answer means on the side of Proxmox. */
  lemma WorldEffect(l: Local, a: Answer)
    requires !EdgePlace(l.at) && CanAnswer(l, a)
    ensures DoBody(l, a).guests ==
      if l.at.Clone? && (a.NewGuest? || a.LostGuest?) then l.guests[a.guest := l.v] else l.guests
    ensures DoBody(l, a).doomed ==
      if l.at.Destroy? && a.Ok? then l.doomed + {l.vm.vmid.value} else l.doomed
  {
  }

  class Session {
    const v: VmRow
    const answers: (nat, Local) -> Answer
    const meddling: nat -> Meddling
    var vm: Vm
    var job: Job
    var ssh: SshStatus
    var guests: map<Vmid, VmRow>
    var doomed: set<Vmid>
    var waits: nat
    ghost var start: Local
    ghost var moves: seq<Move>
    ghost var meddlings: seq<Meddling>
    ghost var next: Local
    ghost var seen: Local

    function Here(at: Place): Local
      reads this
    {
      Local(v, vm, job, at, ssh, guests, doomed)
    }

    /** What was done so far is a path of the step system. */
    ghost predicate Valid()
      reads this
    {
      Truthful(answers) && Path(start, moves, meddlings, next)
    }

    /** What the answers so far tell: whether the job fails, and at its end which address
        and ssh_status it leaves. */
    lemma Told()
      requires Valid() && Begins(start)
      ensures next.at.Failing? <==> !WentWell(moves)
      ensures next.at.Finish? ==> next.vm.ip == AddressAfter(start, moves) && next.ssh == FinalSsh(start, moves)
    {
      PathTracked(start, moves, meddlings, next);
      if moves != [] { LastFatal(start, moves, meddlings, next); }
    }

    /** dispatch has read the rows of a queued job. */
    constructor (l: Local, answers: (nat, Local) -> Answer, meddling: nat -> Meddling)
      requires Truthful(answers) && l.at.Loaded?
      ensures Valid() && Here(Loaded) == l && moves == [] && v == l.v
    {
      v, vm, job, ssh, guests, doomed := l.v, l.vm, l.job, l.ssh, l.guests, l.doomed;
      this.answers, this.meddling, waits := answers, meddling, 0;
      start, moves, meddlings, next, seen := l, [], [], l, l;
    }

    /** The row, the job and the session are as before the wait, but for a reset of the
        ssh_status column; seen is what the answer was given to. */
    twostate predicate Waited(at: Place)
      reads this
    {
      && Valid() && start == old(start)
      && vm == old(vm).(ssh := vm.ssh) && job == old(job) && ssh == old(ssh)
      && seen == Local(v, vm, job, at, ssh, seen.guests, seen.doomed)
      && guests == next.guests && doomed == next.doomed
      && (!at.Clone? ==> guests.Keys <= old(guests).Keys)
    }

    /** Wait at a place of the job function. Meanwhile the rest of the system meddles, and
        what the call asked of Proxmox is done there. */
    method Wait(at: Place) returns (a: Answer)
      requires Valid() && next == Here(at) && !EdgePlace(at)
      modifies this
      ensures Waited(at) && CanAnswer(seen, a) && next == DoBody(seen, a)
    {
      var m := meddling(waits);
      BeMeddledWith(m);
      seen := Here(at);
      a := Ask(at, m);
      Perform(at, a);
    }

    method WaitDestroy(at: Place) returns (a: Answer)
      requires Valid() && next == Here(at) && DestroyPlace(at)
      modifies this
      ensures Waited(at) && CanAnswer(seen, a) && next == DoDestroy(seen, a)
    {
      a := Wait(at);
    }

    method WaitClone(at: Place) returns (a: Answer)
      requires Valid() && next == Here(at) && ClonePlace(at)
      modifies this
      ensures Waited(at) && CanAnswer(seen, a) && next == DoClone(seen, a)
    {
      a := Wait(at);
    }

    method WaitPower(at: Place) returns (a: Answer)
      requires Valid() && next == Here(at) && PowerPlace(at)
      modifies this
      ensures Waited(at) && CanAnswer(seen, a) && next == DoPower(seen, a)
    {
      a := Wait(at);
    }

    method Ask(at: Place, ghost m: Meddling) returns (a: Answer)
      requires Valid() && seen == Here(at) == Meddle(next, m) && !EdgePlace(next.at)
      modifies this`waits, this`next, this`moves, this`meddlings
      ensures Valid() && CanAnswer(seen, a) && next == DoBody(seen, a)
    {
      a := answers(waits, Here(at));
      waits := waits + 1;
      Extend(start, moves, meddlings, next, m, a);
      next, moves, meddlings := DoBody(seen, a), moves + [Move(seen, a)], meddlings + [m];
    }

    /** What an accepted clone or delete does in Proxmox. */
    method Perform(at: Place, a: Answer)
      requires seen == Here(at) && !EdgePlace(at) && CanAnswer(seen, a) && next == DoBody(seen, a)
      modifies this`guests, this`doomed
      ensures guests == next.guests && doomed == next.doomed
      ensures !at.Clone? ==> guests == old(guests)
    {
      WorldEffect(seen, a);
      if at.Clone? && (a.NewGuest? || a.LostGuest?) {
        guests := guests[a.guest := v];
      }
      if at.Destroy? && a.Ok? {
        doomed := doomed + {vm.vmid.value};
      }
    }

    method BeMeddledWith(m: Meddling)
      modifies this`vm, this`guests, this`doomed
      ensures forall at :: Here(at) == Meddle(old(Here(at)), m)
    {
      if m.reset {
        vm := vm.(ssh := SshPending);
      }
      guests, doomed := guests - m.gone, doomed - m.gone;
    }

    /** Assigning ssh_status in the session. */
    method SetSsh(status: SshStatus)
      modifies this`vm, this`ssh
      ensures ssh == status
      ensures vm == if old(ssh) == status then old(vm) else old(vm).(ssh := status)
    {
      if ssh != status {
        ssh := status;
        vm := vm.(ssh := status);
      }
    }

    /** destroy_existing_vm: a normal return means that the guest is absent. */
    method DestroyExistingVm() returns (ok: bool)
      requires Valid() && next == Here(if vm.vmid.None? then Destroyed else Resolve)
      modifies this
      ensures Valid() && start == old(start) && next == Here(if ok then Destroyed else Failing)
      ensures vm == old(vm).(ssh := vm.ssh) && job == old(job)
      ensures ok && vm.vmid.Some? ==> vm.vmid.value !in guests
      ensures Begins(start) ==> (ok <==> WentWell(moves))
    {
      ok := StopAndDestroy();
      if Begins(start) { Told(); }
    }

    /** The calls of destroy_existing_vm, in order */
    method StopAndDestroy() returns (ok: bool)
      requires Valid() && next == Here(if vm.vmid.None? then Destroyed else Resolve)
      modifies this
      ensures Valid() && start == old(start) && next == Here(if ok then Destroyed else Failing)
      ensures vm == old(vm).(ssh := vm.ssh) && job == old(job)
      ensures ok && vm.vmid.Some? ==> vm.vmid.value !in guests
    {
      if vm.vmid.None? {
        return true;
      }
      var a := WaitDestroy(Resolve);
      if !a.Ok? {
        return a.Missing?;
      }
      a := WaitDestroy(StopGuest);
      if a.OtherFailure? {
        return false;
      }
      a := WaitDestroy(Destroy);
      if !a.Ok? {
        return false;
      }
      a := WaitDestroy(AwaitDestroy);
      return a.Ok?;
    }

    /** delete_vm_job: the row is marked deleted only once its guest is absent. */
    method DeleteVmJob() returns (ok: bool)
      requires Valid() && next == Here(Begin) && job.kind == DeleteVm
      modifies this
      ensures Valid() && start == old(start) && next == Here(if ok then Finish else Failing)
      ensures job == old(job) && vm.vmid == old(vm.vmid)
      ensures ok ==> vm.deleted && vm.status == Deleted && (vm.vmid.Some? ==> vm.vmid.value !in guests)
      ensures !ok ==> vm.deleted == old(vm.deleted)
      ensures Begins(start) ==> (ok <==> WentWell(moves))
    {
      var a := Wait(Begin);
      vm := vm.(status := Deleting);
      ok := DestroyExistingVm();
      if ok {
        a := WaitDestroy(Destroyed);
        vm := vm.(status := Deleted, deleted := true);
      }
      if Begins(start) { Told(); }
    }

    /** reinstall_vm_job: the row lets go of its guest only once that guest is absent, and
        owns the new clone if the job ends well. */
    method ReinstallVmJob() returns (ok: bool)
      requires Valid() && next == Here(Begin) && job.kind == ReinstallVm && job.target == None
      modifies this
      ensures Valid() && start == old(start) && next == Here(if ok then Finish else Failing)
      ensures job == old(job).(target := job.target) && vm.deleted == old(vm.deleted)
      ensures ok ==> vm.vmid == job.target && job.target.Some? && vm.status == Running
      ensures job.target.Some? ==> vm.vmid == None || vm.vmid == job.target
      ensures job.target.None? ==> vm.vmid == None || vm.vmid == old(vm.vmid)
    {
      var a := Wait(Begin);
      if !a.Ok? {
        return false;
      }
      vm := vm.(status := Deleting);
      SetSsh(SshPending);
      ok := DestroyExistingVm();
      if ok {
        a := WaitDestroy(Destroyed);
        vm := vm.(vmid := None, ip := None, status := Provisioning);
        ok := ProvisionVmFromTemplate();
      }
    }

    /** create_vm_job */
    method CreateVmJob() returns (ok: bool)
      requires Valid() && next == Here(Begin) && job.kind == CreateVm && job.target == None && vm.vmid == None
      modifies this
      ensures Valid() && start == old(start) && next == Here(if ok then Finish else Failing)
      ensures job == old(job).(target := job.target) && vm.deleted == old(vm.deleted)
      ensures ok ==> vm.vmid == job.target && job.target.Some? && vm.status == Running
      ensures vm.vmid == None || vm.vmid == job.target
    {
      var a := Wait(Begin);
      if !a.Ok? {
        return false;
      }
      ok := ProvisionVmFromTemplate();
    }

    /** provision_vm_from_template */
    method ProvisionVmFromTemplate() returns (ok: bool)
      requires Valid() && next == Here(Provision) && job.target == None && vm.vmid == None
      modifies this
      ensures Valid() && start == old(start) && next == Here(if ok then Finish else Failing)
      ensures job == old(job).(target := job.target) && vm.deleted == old(vm.deleted)
      ensures ok ==> vm.vmid == job.target && job.target.Some? && vm.status == Running
      ensures vm.vmid == None || vm.vmid == job.target
      ensures Begins(start) ==> (ok <==> WentWell(moves))
      ensures Begins(start) && ok ==> vm.ip == AddressAfter(start, moves) && ssh == FinalSsh(start, moves)
    {
      var guest := CloneTemplate();
      ok := guest.Some?;
      if ok {
        ok := BootClone(guest.value);
      }
      if ok {
        ok := FindAddress(guest.value);
      }
      if Begins(start) { Told(); }
    }

    /** provision_vm_from_template up to the commit that records the clone: the clone is
        named in the job's metadata before the row owns it. */
    method CloneTemplate() returns (guest: Option<Vmid>)
      requires Valid() && next == Here(Provision) && job.target == None && vm.vmid == None
      modifies this
      ensures Valid() && start == old(start)
      ensures next == Here(if guest.Some? then Configure(guest.value) else Failing)
      ensures job == old(job).(target := job.target) && vm.deleted == old(vm.deleted)
      ensures guest.Some? ==> vm.vmid == job.target == guest
      ensures guest.None? ==> vm.vmid == None
    {
      var a := WaitClone(Provision);
      SetSsh(SshPending);
      a := WaitClone(Clone);
      if !a.NewGuest? {
        return None;
      }
      guest := Some(a.guest);
      a := WaitClone(Cloned(guest.value));
      job := job.(target := guest);
      a := WaitClone(AwaitClone(guest.value));
      if !a.Ok? {
        return None;
      }
      vm := vm.(vmid := guest, status := Provisioning);
    }

    /** ensure_disk_size; a size that cannot be read is no reason to fail. */
    method EnsureDiskSize(g: Vmid) returns (ok: bool)
      requires Valid() && next == Here(Resize(g))
      modifies this
      ensures Valid() && start == old(start) && next == Here(if ok then BootGuest(g) else Failing)
      ensures job == old(job) && vm == old(vm).(ssh := vm.ssh, diskGb := vm.diskGb)
      ensures old(vm.diskGb) <= vm.diskGb
    {
      var a := Wait(Resize(g));
      if !a.Size? {
        return false;
      }
      if a.current.Some? && vm.diskGb <= a.current.value {
        if vm.diskGb < a.current.value {
          vm := vm.(diskGb := a.current.value);
        }
        return true;
      }
      return a.resized || a.current.None?;
    }

    /** provision_vm_from_template from the clone to the first boot */
    method BootClone(g: Vmid) returns (ok: bool)
      requires Valid() && next == Here(Configure(g))
      modifies this
      ensures Valid() && start == old(start) && next == Here(if ok then AwaitIp(g) else Failing)
      ensures job == old(job) && vm.vmid == old(vm.vmid) && vm.deleted == old(vm.deleted)
      ensures ok ==> vm.status == Running
    {
      var a := Wait(Configure(g));
      if !a.Ok? {
        return false;
      }
      ok := EnsureDiskSize(g);
      if ok {
        a := Wait(BootGuest(g));
        if !a.Ok? {
          return false;
        }
        vm := vm.(status := Running);
      }
    }

    /** provision_vm_from_template from the first boot on */
    method FindAddress(g: Vmid) returns (ok: bool)
      requires Valid() && next == Here(AwaitIp(g))
      modifies this
      ensures Valid() && start == old(start) && next == Here(if ok then Finish else Failing)
      ensures job == old(job) && vm == old(vm).(ssh := vm.ssh, ip := vm.ip)
      ensures Begins(start) ==> (ok <==> WentWell(moves))
      ensures Begins(start) && ok ==> vm.ip == AddressAfter(start, moves) && ssh == FinalSsh(start, moves)
    {
      ok := AwaitAddress(g);
      if Begins(start) { Told(); }
    }

    /** The waits for an address and the reset of the guest's identity between them */
    method AwaitAddress(g: Vmid) returns (ok: bool)
      requires Valid() && next == Here(AwaitIp(g))
      modifies this
      ensures Valid() && start == old(start) && next == Here(if ok then Finish else Failing)
      ensures job == old(job) && vm == old(vm).(ssh := vm.ssh, ip := vm.ip)
    {
      var a := Wait(AwaitIp(g));
      if a.Address? {
        vm := vm.(ip := Some(a.ip));
      } else if a.ProxmoxTimeout? {
        SetSsh(SshFailed);
        return true;
      } else {
        return false;
      }
      a := Wait(ResetIdentity(g));
      if a.Address? {
        vm := vm.(ip := Some(a.ip));
      }
      return !a.OtherFailure?;
    }

    /** power_job */
    method PowerJob() returns (ok: bool)
      requires Valid() && next == Here(Begin) && IsPower(job.kind)
      modifies this
      ensures Valid() && start == old(start) && next == Here(if ok then Finish else Failing)
      ensures job == old(job) && vm.vmid == old(vm.vmid) && vm.deleted == old(vm.deleted)
      ensures ok ==> vm.vmid.Some? && vm.status == if job.kind == StopVm then Stopped else Running
      ensures Begins(start) && ok ==> vm.ip == AddressAfter(start, moves) && ssh == FinalSsh(start, moves)
    {
      var a := Wait(Begin);
      if vm.vmid.None? {
        return false;
      }
      vm := vm.(status := if job.kind == StartVm then Starting else if job.kind == StopVm then Stopping else Rebooting);
      if job.kind == StartVm {
        SetSsh(SshPending);
      }
      ok := AwaitPower();
      if Begins(start) { Told(); }
    }

    /** power_job after its first commit */
    method AwaitPower() returns (ok: bool)
      requires Valid() && next == Here(PowerCall) && IsPower(job.kind)
      modifies this
      ensures Valid() && start == old(start) && next == Here(if ok then Finish else Failing)
      ensures job == old(job) && vm == old(vm).(status := vm.status, ssh := vm.ssh, ip := vm.ip)
      ensures ok ==> vm.status == if job.kind == StopVm then Stopped else Running
    {
      var a := WaitPower(PowerCall);
      if !a.Ok? {
        return false;
      }
      if job.kind == StopVm {
        vm := vm.(status := Stopped);
        return true;
      }
      a := WaitPower(PowerIp);
      if a.OtherFailure? {
        return false;
      }
      vm := vm.(status := Running);
      if a.Address? {
        vm := vm.(ip := Some(a.ip));
      } else {
        SetSsh(SshFailed);
      }
      return true;
    }

    /** check_ssh_ready: it never raises, and never calls a VM without address ready. */
    method CheckSshReady() returns (ready: bool)
      requires Valid() && next == Here(Begin) && job.kind == SshCheck
      modifies this
      ensures Valid() && start == old(start) && next == Here(Finish)
      ensures job == old(job) && vm == old(vm).(ssh := vm.ssh)
      ensures ready ==> vm.ip.Some? && ssh == SshReady
      ensures !ready ==> ssh == SshFailed
      ensures Begins(start) ==> ssh == FinalSsh(start, moves)
    {
      var a := Wait(Begin);
      ready := false;
      if vm.ip.None? {
        SetSsh(SshFailed);
      } else {
        a := WaitPower(Probe);
        ready := a.Ok?;
        SetSsh(if ready then SshReady else SshFailed);
      }
      if Begins(start) { Told(); }
    }

    /** dispatch, but for the insertion of the SSH check that it asks for */
    method Dispatch() returns (spawns: bool)
      requires Valid() && next == Here(Loaded)
      requires job.target == None && Linked(next)
      requires job.kind == CreateVm ==> vm.vmid == None
      modifies this
      ensures Valid() && start == old(Here(Loaded)).(job := old(job).(status := JobRunning), at := Begin)
      ensures next.at == if NoneFatal(moves) then Finish else Failing
      ensures job.status == if NoneFatal(moves) then JobSuccess else JobFailed
      ensures NoneFatal(moves) ==> Outcome(start, moves, vm, job)
      ensures vm == if NoneFatal(moves) then next.vm else next.vm.(status := Error)
      ensures RowSoFar(start, moves, next)
      ensures spawns <==> NoneFatal(moves) && old(job.kind) in {CreateVm, ReinstallVm, StartVm, RebootVm}
      ensures vm.deleted <==> old(vm.deleted) || (old(job.kind) == DeleteVm && NoneFatal(moves))
      ensures vm.deleted && !old(vm.deleted) && vm.vmid.Some? ==> vm.vmid.value !in guests
      ensures NeedsPassword(job.kind) && job.target.Some? ==> vm.vmid == None || vm.vmid == job.target
    {
      job := job.(status := JobRunning);
      start, moves, meddlings, next := Here(Begin), [], [], Here(Begin);
      var ok := RunJob();
      JobEnds(start, moves, meddlings, next);
      if ok {
        job := job.(status := JobSuccess);
        return SpawnsCheck(job.kind);
      }
      vm := vm.(status := Error);
      job := job.(status := JobFailed);
      return false;
    }

    /** The branch of dispatch on the job type */
    method RunJob() returns (ok: bool)
      requires Valid() && next == Here(Begin) && job.target == None && (job.kind == CreateVm ==> vm.vmid == None)
      modifies this
      ensures Valid() && start == old(start) && next == Here(if ok then Finish else Failing)
      ensures job == old(job).(target := job.target)
      ensures vm.deleted <==> old(vm.deleted) || (job.kind == DeleteVm && ok)
      ensures vm.deleted && !old(vm.deleted) && vm.vmid.Some? ==> vm.vmid.value !in guests
      ensures NeedsPassword(job.kind) && job.target.Some? ==> vm.vmid == None || vm.vmid == job.target
    {
      ok := true;
      if job.kind == CreateVm {
        ok := CreateVmJob();
      } else if job.kind == ReinstallVm {
        ok := ReinstallVmJob();
      } else if IsPower(job.kind) {
        ok := PowerJob();
      } else if job.kind == DeleteVm {
        ok := DeleteVmJob();
      } else {
        var ready := CheckSshReady();
      }
    }
  }
}
