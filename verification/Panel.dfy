/** The lifecycle engine as a step system: API handlers, the FIFO queue, the single worker,
    crashes and startup, over the committed rows and the guests that Proxmox holds.
    A step runs from one suspension point that matters to the next: at most one commit,
    one queue operation or one mutating Proxmox call. */
module Panel {
  import opened Wrappers
  import opened Entities

  /** Where the startup sequence of the process stands (backend/app/main.py:71-78).
      Requeued(unresumable) is after the queue was refilled and before the commit that
      fails the jobs which cannot be resumed; the worker is already alive then. */
  datatype Phase = Down | Marked | Requeued(unresumable: set<JobRow>) | Serving

  /** The worker's position inside dispatch and the job functions it calls. */
  datatype Place =
    | Loaded                    // popped from the queue, rows read
    | Begin                     // the job is committed as running
    | Resolve | StopGuest | Destroy | AwaitDestroy   // inside destroy_existing_vm
    | Destroyed                 // destroy_existing_vm returned
    | Provision | Clone         // provision_vm_from_template, before the clone
    | Cloned(guest: Vmid)       // clone accepted, target_vmid not yet committed
    | AwaitClone(guest: Vmid)   // target_vmid committed
    | Configure(guest: Vmid) | Resize(guest: Vmid) | BootGuest(guest: Vmid)
    | AwaitIp(guest: Vmid) | ResetIdentity(guest: Vmid)
    | PowerCall | PowerIp       // power_job
    | Probe                     // check_ssh_ready
    | Finish                    // the job function returned
    | Spawn                     // success committed, SSH check to be inserted
    | PutSpawned(check: JobRow) // SSH check committed, to be enqueued
    | Failing                   // an exception reached dispatch

  /** ssh is the ssh_status value the worker's session holds: the session writes the
      column only when the value it assigns differs from the one it holds. */
  datatype Worker = Idle | Busy(job: JobRow, at: Place, ssh: SshStatus)

  datatype Handler =
    | AwaitLock(host: string, diskGb: int)
    | Locked(host: string, diskGb: int)
    | Rechecked(host: string, diskGb: int)
    | Inserted(job: JobRow)                  // committed, lock still held
    | Guarded(kind: JobKind, vm: VmRow)      // state guard passed on the row as it was read
    | SshGuarded(vm: VmRow, seen: SshStatus)
    | SshReset(vm: VmRow)
    | Enqueueing(job: JobRow)
    | Done

  /** guests maps each panel-created guest to the row it was cloned for; doomed holds the
      guests whose DELETE was accepted. started is history: the jobs whose body was
      started, in order. */
  datatype State = State(
    vms: seq<Vm>, jobs: seq<Job>,
    phase: Phase, queue: seq<JobRow>, worker: Worker,
    handlers: seq<Handler>, lock: Option<nat>,
    guests: map<Vmid, VmRow>, doomed: set<Vmid>,
    started: seq<JobRow>)

  const INIT := State([], [], Down, [], Idle, [], None, map[], {}, [])

  /** What the outside world answers to the worker's next call. */
  datatype Answer =
    | Ok                             // success, also for steps that only commit
    | ProxmoxFailure                 // a ProxmoxError other than a time-out
    | ProxmoxTimeout
    | OtherFailure                   // any other exception
    | Missing                        // "not found" from resolve_vm_node
    | NewGuest(guest: Vmid)          // clone accepted under this VMID
    | LostGuest(guest: Vmid)         // clone accepted, but the call failed for the panel
    | Size(current: Option<int>, resized: bool)
    | Address(ip: string)

  predicate IsFailure(a: Answer) {
    a in {ProxmoxFailure, ProxmoxTimeout, OtherFailure}
  }

  datatype Step =
    | RequestCreate(host: string, diskGb: int, minDiskGb: int)
    | RequestJob(kind: JobKind, vm: VmRow)
    | RequestSshCheck(vm: VmRow)
    | Advance(handler: nat)          // a handler runs to its next suspension point
    | Abandon(handler: nat)          // a handler fails before it committed anything
    | Take
    | Work(answer: Answer)
    | Vanish(guest: Vmid)
    | Crash
    | MarkOrphans
    | Requeue(order: seq<JobRow>)
    | CommitRequeue

  // ---------------------------------------------------------------- rows

  /** Every row reference in the job table is to an existing VM. */
  predicate RefsOk(s: State) {
    forall j :: 0 <= j < |s.jobs| ==> s.jobs[j].vm < |s.vms|
  }

  predicate WorkerOk(s: State) {
    && RefsOk(s)
    && (s.worker.Busy? ==> s.worker.job < |s.jobs|)
  }

  // ---------------------------------------------------------------- API handlers

  predicate HostTaken(vms: seq<Vm>, host: string) {
    exists v :: 0 <= v < |vms| && !vms[v].deleted && Lower(vms[v].hostname) == host
  }

  /** The state guards of the start, stop, reboot, reinstall and delete endpoints. */
  predicate GuardPasses(kind: JobKind, vm: Vm) {
    !vm.deleted &&
    match kind
    case StartVm => vm.status in {Stopped, Error} && vm.vmid.Some?
    case StopVm => vm.status == Running
    case RebootVm => vm.status == Running
    case ReinstallVm => vm.status in {Running, Stopped, Error}
    case DeleteVm => vm.status in {Running, Stopped, Error}
    case CreateVm => false
    case SshCheck => false
  }

  predicate HoldsLock(h: Handler) {
    h.Locked? || h.Rechecked? || h.Inserted?
  }

  predicate CanAdvance(s: State, i: nat) {
    && s.phase == Serving
    && i < |s.handlers|
    && match s.handlers[i]
       case AwaitLock(_, _) => s.lock == None
       case Done => false
       case _ => true
  }

  function SetHandler(s: State, i: nat, h: Handler): State
    requires i < |s.handlers|
  {
    s.(handlers := s.handlers[i := h])
  }

  function NewVm(host: string, diskGb: int): Vm {
    Vm(host, diskGb, None, Creating, SshPending, None, false)
  }

  function AdvanceHandler(s: State, i: nat): State
    requires CanAdvance(s, i)
  {
    match s.handlers[i]
    case AwaitLock(host, disk) => SetHandler(s, i, Locked(host, disk)).(lock := Some(i))
    case Locked(host, disk) =>
      if HostTaken(s.vms, host)
      then SetHandler(s, i, Done).(lock := None)
      else SetHandler(s, i, Rechecked(host, disk))
    case Rechecked(host, disk) =>
      SetHandler(s, i, Inserted(|s.jobs|)).(
        vms := s.vms + [NewVm(host, disk)],
        jobs := s.jobs + [Job(CreateVm, JobQueued, |s.vms|, None)])
    case Inserted(j) => SetHandler(s, i, Enqueueing(j)).(lock := None)
    case Guarded(kind, v) =>
      SetHandler(s, i, Enqueueing(|s.jobs|)).(jobs := s.jobs + [Job(kind, JobQueued, v, None)])
    case SshGuarded(v, seen) =>
      var s1 := SetHandler(s, i, SshReset(v));
      if seen == SshPending || v >= |s.vms| then s1 else s1.(vms := s.vms[v := s.vms[v].(ssh := SshPending)])
    case SshReset(v) =>
      SetHandler(s, i, Enqueueing(|s.jobs|)).(jobs := s.jobs + [Job(SshCheck, JobQueued, v, None)])
    case Enqueueing(j) => SetHandler(s, i, Done).(queue := s.queue + [j])
  }

  function Max(a: int, b: int): int { if a < b then b else a }

  // ---------------------------------------------------------------- worker

  /** What a job function works on: its job and VM rows, its place, the ssh_status value its
      session holds, and the guests. v is the row number of the VM. */
  datatype Local = Local(
    v: VmRow, vm: Vm, job: Job, at: Place, ssh: SshStatus,
    guests: map<Vmid, VmRow>, doomed: set<Vmid>)

  function LocalOf(s: State): Local
    requires WorkerOk(s) && s.worker.Busy?
  {
    var job := s.jobs[s.worker.job];
    Local(job.vm, s.vms[job.vm], job, s.worker.at, s.worker.ssh, s.guests, s.doomed)
  }

  function Put(s: State, l: Local): State
    requires WorkerOk(s) && s.worker.Busy?
    requires l.v < |s.vms|
  {
    s.(vms := s.vms[l.v := l.vm], jobs := s.jobs[s.worker.job := l.job],
       worker := Busy(s.worker.job, l.at, l.ssh),
       guests := l.guests, doomed := l.doomed)
  }

  predicate CanTake(s: State) {
    && WorkerOk(s)
    && s.phase != Down
    && s.worker.Idle?
    && |s.queue| > 0
    && s.queue[0] < |s.jobs|
  }

  function TakeJob(s: State): State
    requires CanTake(s)
  {
    var j := s.queue[0];
    s.(queue := s.queue[1..], worker := Busy(j, Loaded, s.vms[s.jobs[j].vm].ssh))
  }

  predicate IsPower(kind: JobKind) {
    kind == StartVm || kind == StopVm || kind == RebootVm
  }

  /** The answers the outside world can give at the worker's place. Proxmox is truthful:
      it reports a guest missing, or its delete task done, only when the guest is absent,
      and accepts a DELETE only for a guest it has and a clone only under a free VMID. */
  predicate CanAnswer(l: Local, a: Answer) {
    match l.at
    case Begin =>
      if l.job.kind == CreateVm || l.job.kind == ReinstallVm then a.Ok? || a.OtherFailure?
      else if IsPower(l.job.kind) && l.vm.vmid.None? then a.OtherFailure?
      else a.Ok?
    case Resolve =>
      || IsFailure(a)
      || (a.Ok? && l.vm.vmid.Some? && l.vm.vmid.value in l.guests)
      || (a.Missing? && l.vm.vmid.Some? && l.vm.vmid.value !in l.guests)
    case StopGuest => a.Ok? || IsFailure(a)
    case Destroy => IsFailure(a) || (a.Ok? && l.vm.vmid.Some? && l.vm.vmid.value in l.guests)
    case AwaitDestroy => IsFailure(a) || (a.Ok? && l.vm.vmid.Some? && l.vm.vmid.value !in l.guests)
    case Clone =>
      || IsFailure(a)
      || ((a.NewGuest? || a.LostGuest?) && a.guest !in l.guests)
    case AwaitClone(_) => a.Ok? || IsFailure(a)
    case Configure(_) => a.Ok? || IsFailure(a)
    case Resize(_) => a.Size? || IsFailure(a)
    case BootGuest(_) => a.Ok? || IsFailure(a)
    case AwaitIp(_) => a.Address? || a.ProxmoxTimeout? || a.OtherFailure?
    case ResetIdentity(_) => a.Address? || IsFailure(a)
    case PowerCall => a.Ok? || IsFailure(a)
    case PowerIp => a.Address? || a.ProxmoxTimeout? || a.OtherFailure?
    case Probe => a.Ok? || a.ProxmoxTimeout?
    case _ => a.Ok?
  }

  /** Assign ssh_status in the session: the column is written when the value is new. */
  function Ssh(l: Local, ssh: SshStatus): Local {
    if l.ssh == ssh then l else l.(ssh := ssh, vm := l.vm.(ssh := ssh))
  }

  function Goto(l: Local, at: Place): Local {
    l.(at := at)
  }

  /** dispatch, from the commit that marks the job running to its branch on the job type,
      and the first commit of the job function. */
  function DoBegin(l: Local, a: Answer): Local {
    var toDestroy := if l.vm.vmid.None? then Destroyed else Resolve;
    if !a.Ok? then Goto(l, Failing) else
    match l.job.kind
    case CreateVm => Goto(l, Provision)
    case ReinstallVm => Ssh(l.(vm := l.vm.(status := Deleting), at := toDestroy), SshPending)
    case DeleteVm => l.(vm := l.vm.(status := Deleting), at := toDestroy)
    case StartVm => Ssh(l.(vm := l.vm.(status := Starting), at := PowerCall), SshPending)
    case StopVm => l.(vm := l.vm.(status := Stopping), at := PowerCall)
    case RebootVm => l.(vm := l.vm.(status := Rebooting), at := PowerCall)
    case SshCheck => if l.vm.ip.None? then Ssh(Goto(l, Finish), SshFailed) else Goto(l, Probe)
  }

  predicate DestroyPlace(at: Place) {
    at.Resolve? || at.StopGuest? || at.Destroy? || at.AwaitDestroy? || at.Destroyed?
  }

  /** destroy_existing_vm, and the commit its caller makes when it returns. */
  function DoDestroy(l: Local, a: Answer): Local
    requires DestroyPlace(l.at) && CanAnswer(l, a)
  {
    match l.at
    case Resolve =>
      Goto(l, if a.Ok? then StopGuest else if a.Missing? then Destroyed else Failing)
    case StopGuest => Goto(l, if a.OtherFailure? then Failing else Destroy)
    case Destroy =>
      if a.Ok? then l.(at := AwaitDestroy, doomed := l.doomed + {l.vm.vmid.value})
      else Goto(l, Failing)
    case AwaitDestroy => Goto(l, if a.Ok? then Destroyed else Failing)
    case Destroyed =>
      if l.job.kind == ReinstallVm
      then l.(vm := l.vm.(vmid := None, ip := None, status := Provisioning), at := Provision)
      else l.(vm := l.vm.(status := Deleted, deleted := true), at := Finish)
  }

  predicate ClonePlace(at: Place) {
    at.Provision? || at.Clone? || at.Cloned? || at.AwaitClone?
  }

  /** provision_vm_from_template up to the commit that records the clone. */
  function DoClone(l: Local, a: Answer): Local
    requires ClonePlace(l.at) && CanAnswer(l, a)
  {
    match l.at
    case Provision => Ssh(Goto(l, Clone), SshPending)
    case Clone =>
      if a.NewGuest? then l.(at := Cloned(a.guest), guests := l.guests[a.guest := l.v])
      else if a.LostGuest? then l.(at := Failing, guests := l.guests[a.guest := l.v])
      else Goto(l, Failing)
    case Cloned(g) => l.(at := AwaitClone(g), job := l.job.(target := Some(g)))
    case AwaitClone(g) =>
      if a.Ok? then l.(vm := l.vm.(vmid := Some(g), status := Provisioning), at := Configure(g))
      else Goto(l, Failing)
  }

  predicate SetupPlace(at: Place) {
    at.Configure? || at.Resize? || at.BootGuest? || at.AwaitIp? || at.ResetIdentity?
  }

  /** provision_vm_from_template after the clone is recorded. */
  function DoSetup(l: Local, a: Answer): Local
    requires SetupPlace(l.at) && CanAnswer(l, a)
  {
    match l.at
    case Configure(g) => Goto(l, if a.Ok? then Resize(g) else Failing)
    case Resize(g) =>
      if !a.Size? then Goto(l, Failing)
      else if a.current.Some? && l.vm.diskGb <= a.current.value
      then l.(vm := l.vm.(diskGb := a.current.value), at := BootGuest(g))
      else Goto(l, if a.resized || a.current.None? then BootGuest(g) else Failing)
    case BootGuest(g) =>
      if a.Ok? then l.(vm := l.vm.(status := Running), at := AwaitIp(g)) else Goto(l, Failing)
    case AwaitIp(g) =>
      if a.Address? then l.(vm := l.vm.(ip := Some(a.ip)), at := ResetIdentity(g))
      else if a.ProxmoxTimeout? then Ssh(Goto(l, Finish), SshFailed)
      else Goto(l, Failing)
    case ResetIdentity(g) =>
      if a.Address? then l.(vm := l.vm.(ip := Some(a.ip)), at := Finish)
      else Goto(l, if a.OtherFailure? then Failing else Finish)
  }

  predicate PowerPlace(at: Place) {
    at.PowerCall? || at.PowerIp? || at.Probe?
  }

  /** power_job after its first commit, and check_ssh_ready once there is an address. */
  function DoPower(l: Local, a: Answer): Local
    requires PowerPlace(l.at) && CanAnswer(l, a)
  {
    match l.at
    case PowerCall =>
      if !a.Ok? then Goto(l, Failing)
      else if l.job.kind == StopVm then l.(vm := l.vm.(status := Stopped), at := Finish)
      else Goto(l, PowerIp)
    case PowerIp =>
      if a.Address? then l.(vm := l.vm.(status := Running, ip := Some(a.ip)), at := Finish)
      else if a.ProxmoxTimeout? then Ssh(l.(vm := l.vm.(status := Running), at := Finish), SshFailed)
      else Goto(l, Failing)
    case Probe => Ssh(Goto(l, Finish), if a.Ok? then SshReady else SshFailed)
  }

  predicate EdgePlace(at: Place) {
    at.Loaded? || at.Finish? || at.Spawn? || at.PutSpawned? || at.Failing?
  }

  /** One step inside a job function. */
  function DoBody(l: Local, a: Answer): Local
    requires !EdgePlace(l.at) && CanAnswer(l, a)
  {
    if l.at.Begin? then DoBegin(l, a)
    else if DestroyPlace(l.at) then DoDestroy(l, a)
    else if ClonePlace(l.at) then DoClone(l, a)
    else if SetupPlace(l.at) then DoSetup(l, a)
    else DoPower(l, a)
  }

  /** dispatch around the job function: start, success with its SSH check, failure. */
  function DoEdge(s: State): State
    requires WorkerOk(s) && s.worker.Busy? && EdgePlace(s.worker.at)
  {
    var j := s.worker.job;
    var l := LocalOf(s);
    match s.worker.at
    case Loaded => Put(s, l.(job := l.job.(status := JobRunning), at := Begin)).(started := s.started + [j])
    case Finish =>
      var s1 := Put(s, l.(job := l.job.(status := JobSuccess), at := Spawn));
      if SpawnsCheck(l.job.kind) then s1 else s1.(worker := Idle)
    case Spawn =>
      s.(worker := Busy(j, PutSpawned(|s.jobs|), l.ssh),
         jobs := s.jobs + [Job(SshCheck, JobQueued, l.v, None)])
    case PutSpawned(check) => s.(worker := Idle, queue := s.queue + [check])
    case Failing =>
      Put(s, l.(vm := l.vm.(status := Error), job := l.job.(status := JobFailed))).(worker := Idle)
  }

  predicate CanWork(s: State, a: Answer) {
    && WorkerOk(s)
    && s.phase != Down
    && s.worker.Busy?
    && CanAnswer(LocalOf(s), a)
  }

  function DoWork(s: State, a: Answer): State
    requires CanWork(s, a)
  {
    if EdgePlace(s.worker.at) then DoEdge(s) else Put(s, DoBody(LocalOf(s), a))
  }

  // ---------------------------------------------------------------- crash and startup

  /** The process dies: queue, worker, handlers and lock go; rows and guests stay. */
  function DoCrash(s: State): State {
    s.(phase := Down, queue := [], worker := Idle, handlers := [], lock := None)
  }

  /** mark_orphaned_running_as_failed: the first n job rows handed their clones over. */
  function Adopted(vms: seq<Vm>, jobs: seq<Job>, n: nat): (r: seq<Vm>)
    requires n <= |jobs|
    ensures |r| == |vms|
  {
    if n == 0 then vms else
    var prev := Adopted(vms, jobs, n - 1);
    var job := jobs[n - 1];
    if job.status == JobRunning && job.target.Some? && job.vm < |vms| && prev[job.vm].vmid.None?
    then prev[job.vm := prev[job.vm].(vmid := job.target)]
    else prev
  }

  function FailRunning(job: Job): Job {
    if job.status == JobRunning then job.(status := JobFailed) else job
  }

  function Settle(vm: Vm): Vm {
    if Transient(vm.status) && !vm.deleted then vm.(status := Error) else vm
  }

  function MarkedVms(vms: seq<Vm>, jobs: seq<Job>): (r: seq<Vm>)
    ensures |r| == |vms|
  {
    var adopted := Adopted(vms, jobs, |jobs|);
    seq(|vms|, v requires 0 <= v < |vms| => Settle(adopted[v]))
  }

  function MarkedJobs(jobs: seq<Job>): (r: seq<Job>)
    ensures |r| == |jobs|
  {
    seq(|jobs|, j requires 0 <= j < |jobs| => FailRunning(jobs[j]))
  }

  function DoMark(s: State): State {
    s.(phase := Marked, vms := MarkedVms(s.vms, s.jobs), jobs := MarkedJobs(s.jobs))
  }

  /** order lists the resumable queued jobs in the order the query returned them. */
  ghost predicate IsResumeOrder(jobs: seq<Job>, order: seq<JobRow>) {
    && (forall i :: 0 <= i < |order| ==>
          order[i] < |jobs| && jobs[order[i]].status == JobQueued && !NeedsPassword(jobs[order[i]].kind))
    && (forall i, k :: 0 <= i < k < |order| ==> order[i] != order[k])
    && (forall j :: 0 <= j < |jobs| && jobs[j].status == JobQueued && !NeedsPassword(jobs[j].kind)
          ==> j in order)
  }

  function Unresumable(jobs: seq<Job>): set<JobRow> {
    set j | 0 <= j < |jobs| && jobs[j].status == JobQueued && NeedsPassword(jobs[j].kind)
  }

  function FailListed(jobs: seq<Job>, listed: set<JobRow>): (r: seq<Job>)
    ensures |r| == |jobs|
  {
    seq(|jobs|, j requires 0 <= j < |jobs| =>
      if j in listed then jobs[j].(status := JobFailed) else jobs[j])
  }

  // ---------------------------------------------------------------- the step system

  ghost predicate Enabled(s: State, step: Step) {
    match step
    case RequestCreate(host, _, _) => s.phase == Serving && !HostTaken(s.vms, Lower(host))
    case RequestJob(kind, v) => s.phase == Serving && v < |s.vms| && GuardPasses(kind, s.vms[v])
    case RequestSshCheck(v) =>
      s.phase == Serving && v < |s.vms| && !s.vms[v].deleted && s.vms[v].status == Running
    case Advance(i) => CanAdvance(s, i)
    case Abandon(i) =>
      s.phase == Serving && i < |s.handlers| && (s.handlers[i].Guarded? || s.handlers[i].AwaitLock?)
    case Take => CanTake(s)
    case Work(a) => CanWork(s, a)
    case Vanish(g) => g in s.guests
    case Crash => true
    case MarkOrphans => s.phase == Down
    case Requeue(order) => s.phase == Marked && IsResumeOrder(s.jobs, order)
    case CommitRequeue => s.phase.Requeued?
  }

  ghost function Apply(s: State, step: Step): State
    requires Enabled(s, step)
  {
    match step
    case RequestCreate(host, disk, minDisk) =>
      s.(handlers := s.handlers + [AwaitLock(Lower(host), Max(disk, minDisk))])
    case RequestJob(kind, v) => s.(handlers := s.handlers + [Guarded(kind, v)])
    case RequestSshCheck(v) => s.(handlers := s.handlers + [SshGuarded(v, s.vms[v].ssh)])
    case Advance(i) => AdvanceHandler(s, i)
    case Abandon(i) => SetHandler(s, i, Done)
    case Take => TakeJob(s)
    case Work(a) => DoWork(s, a)
    case Vanish(g) => s.(guests := s.guests - {g}, doomed := s.doomed - {g})
    case Crash => DoCrash(s)
    case MarkOrphans => DoMark(s)
    case Requeue(order) =>
      s.(phase := Requeued(Unresumable(s.jobs)), queue := s.queue + order)
    case CommitRequeue => s.(phase := Serving, jobs := FailListed(s.jobs, s.phase.unresumable))
  }

  /** A run: run[0] is the state before the first deployment ever started. */
  ghost predicate IsRun(run: seq<State>, steps: seq<Step>) {
    && |run| == |steps| + 1
    && run[0] == INIT
    && Follows(run, steps)
  }

  ghost predicate Follows(run: seq<State>, steps: seq<Step>)
    requires |run| == |steps| + 1
  {
    forall i :: 0 <= i < |steps| ==> Enabled(run[i], steps[i]) && run[i + 1] == Apply(run[i], steps[i])
  }
}
