/** The API handlers as the source writes them: methods that check, wait, take the create
    lock, insert rows and enqueue (backend/app/api/routes.py). While a handler waits, every
    other part of the system may take any steps; what a handler does is a run of the step
    system. */
module Requests {
  import opened Wrappers
  import opened Entities
  import opened Panel
  import opened PanelFrames
  import opened PanelHosts
  import opened PanelInvariant
  import opened PanelRows
  import opened PanelTheorems
  import opened PanelTickets

  ghost predicate Leads(run: seq<State>, steps: seq<Step>, s: State, s': State) {
    |run| == |steps| + 1 && Follows(run, steps) && run[0] == s && run[|steps|] == s'
  }

  ghost predicate Reaches(s: State, s': State) {
    exists run, steps :: Leads(run, steps, s, s')
  }

  /** Steps of the rest of the system: not of handler me, and the process stays up. */
  predicate Elsewhere(me: nat, step: Step) {
    match step
    case Advance(i) => i != me
    case Abandon(i) => i != me
    case Crash => false
    case _ => true
  }

  ghost predicate Others(me: nat, s: State, s': State) {
    exists run, steps :: Leads(run, steps, s, s') && forall i :: 0 <= i < |steps| ==> Elsewhere(me, steps[i])
  }

  /** The world may do anything that others can do. */
  ghost predicate Fair(me: nat, world: (nat, State) -> State) {
    forall n: nat, s: State :: Others(me, s, world(n, s))
  }

  lemma ReachesItself(s: State)
    ensures Reaches(s, s)
  {
    var steps: seq<Step> := [];
    assert Leads([s], steps, s, s);
  }

  lemma ReachesNext(s: State, s1: State, step: Step)
    requires Reaches(s, s1) && Enabled(s1, step)
    ensures Reaches(s, Apply(s1, step))
  {
    var run, steps :| Leads(run, steps, s, s1);
    var run', steps' := run + [Apply(s1, step)], steps + [step];
    forall i | 0 <= i < |steps'| ensures Enabled(run'[i], steps'[i]) && run'[i + 1] == Apply(run'[i], steps'[i]) {
      assert run'[i] == run[i];
      if i < |steps| { assert run'[i + 1] == run[i + 1] && steps'[i] == steps[i]; }
    }
    assert Leads(run', steps', s, Apply(s1, step));
  }

  /** What a waiting handler can rely on: its own state, and the rows of the job that it is
      about to enqueue. */
  ghost predicate Undisturbed(me: nat, s: State, s': State) {
    && s'.phase == Serving && me < |s.handlers| <= |s'.handlers| && s'.handlers[me] == s.handlers[me]
    && Later(s, s') && TicketStays(s, s', HandlerTicket(s.handlers[me]))
  }

  ghost predicate TicketStays(s: State, s': State, ticket: Option<JobRow>) {
    ticket.Some? ==>
      var j := ticket.value;
      && j < |s.jobs| && j < |s'.jobs| && s'.jobs[j] == s.jobs[j]
      && (s.jobs[j].kind == JobKind.CreateVm ==>
            s.jobs[j].vm < |s.vms| && s.jobs[j].vm < |s'.vms| && s'.vms[s.jobs[j].vm] == s.vms[s.jobs[j].vm])
  }

  lemma WorkLeavesTicket(me: nat, s: State, a: Answer)
    requires Tickets(s) && Fresh(s) && me < |s.handlers| && CanWork(s, a)
    ensures TicketStays(s, DoWork(s, a), HandlerTicket(s.handlers[me]))
  {
    if !EdgePlace(s.worker.at) { BodyFrame(LocalOf(s), a); }
  }

  lemma AdvanceLeavesTicket(me: nat, s: State, i: nat)
    requires Tickets(s) && Fresh(s) && me < |s.handlers| && CanAdvance(s, i) && i != me
    ensures TicketStays(s, AdvanceHandler(s, i), HandlerTicket(s.handlers[me]))
  {
  }

  lemma StepElsewhere(me: nat, s: State, step: Step)
    requires Inv(s) && s.phase == Serving && me < |s.handlers| && Enabled(s, step) && Elsewhere(me, step)
    ensures Undisturbed(me, s, Apply(s, step))
  {
    StepIsLater(s, step);
    if step.Work? { WorkLeavesTicket(me, s, step.answer); }
    else if step.Advance? { AdvanceLeavesTicket(me, s, step.handler); }
  }

  lemma {:induction false} RunElsewhere(me: nat, start: State, run: seq<State>, steps: seq<Step>, n: nat)
    requires |run| == |steps| + 1 && Follows(run, steps) && n <= |steps|
    requires forall i :: 0 <= i < |steps| ==> Elsewhere(me, steps[i])
    requires Inv(run[0]) && run[0].phase == Serving && me < |run[0].handlers| && Reaches(start, run[0])
    ensures Inv(run[n]) && Undisturbed(me, run[0], run[n]) && Reaches(start, run[n])
  {
    if n > 0 {
      RunElsewhere(me, start, run, steps, n - 1);
      StepKeepsInv(run[n - 1], steps[n - 1]);
      StepElsewhere(me, run[n - 1], steps[n - 1]);
      ReachesNext(start, run[n - 1], steps[n - 1]);
      LaterIsTransitive(run[0], run[n - 1], run[n]);
    }
  }

  /** VM row v and job row j are there, as this request inserted them. */
  predicate RowsOf(s: State, v: VmRow, host: string, diskGb: int, j: JobRow) {
    && v < |s.vms| && s.vms[v] == Vm(host, diskGb, None, Creating, SshPending, None, false)
    && j < |s.jobs| && s.jobs[j] == Job(JobKind.CreateVm, JobQueued, v, None)
  }

  /** Job row j, of this kind and VM, still waits and was the last to be enqueued. */
  predicate JustEnqueued(s: State, j: JobRow, kind: JobKind, v: VmRow) {
    && j < |s.jobs| && s.jobs[j] == Job(kind, JobQueued, v, None)
    && |s.queue| > 0 && s.queue[|s.queue| - 1] == j
  }

  /** The states in which each of the job requests is accepted. */
  predicate Acceptable(kind: JobKind, vm: Vm) {
    && !vm.deleted
    && match kind
       case StartVm => (vm.status == Stopped || vm.status == Error) && vm.vmid != None
       case StopVm => vm.status == Running
       case RebootVm => vm.status == Running
       case ReinstallVm => vm.status == Running || vm.status == Stopped || vm.status == Error
       case DeleteVm => vm.status == Running || vm.status == Stopped || vm.status == Error
       case CreateVm => false
       case SshCheck => false
  }

  datatype Creation = HostnameTaken | AwaitingLock | Created(vm: VmRow, job: JobRow)

  /** One handler at work on the shared state db; me is its place among the handlers. */
  class Handling {
    const me: nat
    const world: (nat, State) -> State
    var db: State
    var waits: nat
    ghost var start: State

    ghost predicate Valid()
      reads this
    {
      Fair(me, world) && Inv(db) && db.phase == Serving && Reaches(start, db)
    }

    constructor (db: State, world: (nat, State) -> State)
      requires Inv(db) && db.phase == Serving && Fair(|db.handlers|, world)
      ensures Valid() && this.db == db && start == db && me == |db.handlers|
    {
      me, this.world, this.db, waits, start := |db.handlers|, world, db, 0, db;
      ReachesItself(db);
    }

    /** An await: any steps of the others. */
    method Wait()
      requires Valid() && me < |db.handlers|
      modifies this`db, this`waits
      ensures Valid() && Undisturbed(me, old(db), db)
    {
      ghost var before := db;
      db := world(waits, db);
      waits := waits + 1;
      ghost var run, steps :| Leads(run, steps, before, db) && forall i :: 0 <= i < |steps| ==> Elsewhere(me, steps[i]);
      RunElsewhere(me, start, run, steps, |steps|);
    }

    /** A step of this handler. */
    method Do(next: State, ghost step: Step)
      requires Valid() && Enabled(db, step) && next == Apply(db, step) && next.phase == Serving
      modifies this`db
      ensures Valid() && db == next
    {
      StepKeepsInv(db, step);
      ReachesNext(start, db, step);
      db := next;
    }

    /** This handler runs on, from one suspension point to the next. */
    method Go(next: State)
      requires Valid() && CanAdvance(db, me) && next == AdvanceHandler(db, me)
      modifies this`db
      ensures Valid() && db == next && Later(old(db), db)
    {
      StepIsLater(db, Advance(me));
      Do(next, Advance(me));
    }

    /** The own state of this handler. */
    function At(h: Handler): State
      reads this
      requires me < |db.handlers|
    {
      db.(handlers := db.handlers[me := h])
    }

    /** create_vm, once the request is validated. The handler is watched for so many waits
        at the lock; if it was taken all along, the handler is still waiting there. */
    method CreateVm(hostname: string, diskGb: int, minDiskGb: int, patience: nat) returns (r: Creation)
      requires Valid() && me == |db.handlers|
      modifies this`db, this`waits
      ensures Valid()
      ensures r.Created? ==>
        && RowsOf(db, r.vm, Lower(hostname), if diskGb >= minDiskGb then diskGb else minDiskGb, r.job)
        && SameIgnoringCase(db.vms[r.vm].hostname, hostname) && NoCapitals(db.vms[r.vm].hostname)
        && JustEnqueued(db, r.job, JobKind.CreateVm, r.vm) && db.lock != Some(me)
        && r.vm >= |old(db.vms)| && r.job >= |old(db.jobs)|
      ensures TakenIgnoringCase(old(db).vms, hostname) ==> r.HostnameTaken? && db == old(db)
      ensures r.HostnameTaken? ==> TakenIgnoringCase(db.vms, hostname) && db.lock != Some(me)
      ensures r.AwaitingLock? ==>
        && me < |db.handlers| && db.handlers[me] == AwaitLock(Lower(hostname), Max(diskGb, minDiskGb))
        && db.lock.Some? && db.lock != Some(me)
    {
      var host := Lower(hostname);
      LowerIsLower(hostname);
      TakenIff(db.vms, hostname);
      if HostTaken(db.vms, host) {
        HoldersAreHandlers(db, me);
        return HostnameTaken;
      }
      var disk := Max(diskGb, minDiskGb);
      Do(db.(handlers := db.handlers + [AwaitLock(host, disk)]), RequestCreate(hostname, diskGb, minDiskGb));
      WaitForLock(patience);
      if db.lock != None {
        HoldersAreHandlers(db, me);
        return AwaitingLock;
      }
      Go(At(Locked(host, disk)).(lock := Some(me)));
      Wait();
      TakenIff(db.vms, hostname);
      if HostTaken(db.vms, host) {
        Go(At(Done).(lock := None));
        return HostnameTaken;
      }
      Go(At(Rechecked(host, disk)));
      var vm, job := InsertVm(host, disk);
      return Created(vm, job);
    }

    method WaitForLock(patience: nat)
      requires Valid() && me < |db.handlers|
      modifies this`db, this`waits
      ensures Valid() && me < |db.handlers| && db.handlers[me] == old(db).handlers[me]
      ensures |old(db).vms| <= |db.vms| && |old(db).jobs| <= |db.jobs|
    {
      Wait();
      var n := 0;
      while db.lock != None && n < patience
        invariant Valid() && me < |db.handlers| && db.handlers[me] == old(db).handlers[me]
        invariant |old(db).vms| <= |db.vms| && |old(db).jobs| <= |db.jobs|
      {
        Wait();
        n := n + 1;
      }
    }

    /** The rest of create_vm: insert under the lock, release it, enqueue. */
    method InsertVm(host: string, disk: int) returns (vm: VmRow, job: JobRow)
      requires Valid() && me < |db.handlers| && db.handlers[me] == Rechecked(host, disk)
      modifies this`db, this`waits
      ensures Valid() && vm >= |old(db.vms)| && job >= |old(db.jobs)|
      ensures RowsOf(db, vm, host, disk, job)
      ensures JustEnqueued(db, job, JobKind.CreateVm, vm) && db.lock != Some(me)
    {
      Wait();
      vm, job := |db.vms|, |db.jobs|;
      var row := Job(JobKind.CreateVm, JobQueued, vm, None);
      Go(At(Inserted(job)).(vms := db.vms + [NewVm(host, disk)], jobs := db.jobs + [row]));
      ReleaseAndEnqueue(vm, host, disk, job);
    }

    method ReleaseAndEnqueue(ghost vm: VmRow, ghost host: string, ghost disk: int, job: JobRow)
      requires Valid() && me < |db.handlers| && db.handlers[me] == Handler.Inserted(job)
      requires RowsOf(db, vm, host, disk, job)
      modifies this`db, this`waits
      ensures Valid() && RowsOf(db, vm, host, disk, job)
      ensures |db.queue| > 0 && db.queue[|db.queue| - 1] == job && db.lock != Some(me)
    {
      Wait();
      Go(At(Enqueueing(job)).(lock := None));
      EnqueueCreated(vm, host, disk, job);
    }

    method EnqueueCreated(ghost vm: VmRow, ghost host: string, ghost disk: int, job: JobRow)
      requires Valid() && me < |db.handlers| && db.handlers[me] == Enqueueing(job)
      requires RowsOf(db, vm, host, disk, job)
      modifies this`db, this`waits
      ensures Valid() && RowsOf(db, vm, host, disk, job)
      ensures |db.queue| > 0 && db.queue[|db.queue| - 1] == job && db.lock != Some(me)
    {
      Wait();
      Enqueue(job);
    }

    /** db.add, commit and enqueue, as enqueue_power_job does it */
    method CommitAndEnqueue(kind: JobKind, v: VmRow) returns (job: JobRow)
      requires Valid() && me < |db.handlers|
      requires db.handlers[me] == Guarded(kind, v) || (kind == SshCheck && db.handlers[me] == SshReset(v))
      modifies this`db, this`waits
      ensures Valid() && JustEnqueued(db, job, kind, v) && job >= |old(db.jobs)|
    {
      Wait();
      job := |db.jobs|;
      Go(At(Enqueueing(job)).(jobs := db.jobs + [Job(kind, JobQueued, v, None)]));
      WaitAndEnqueue(job, kind, v);
    }

    method WaitAndEnqueue(job: JobRow, ghost kind: JobKind, ghost v: VmRow)
      requires Valid() && me < |db.handlers| && db.handlers[me] == Enqueueing(job)
      requires job < |db.jobs| && db.jobs[job] == Job(kind, JobQueued, v, None)
      modifies this`db, this`waits
      ensures Valid() && JustEnqueued(db, job, kind, v)
    {
      Wait();
      Enqueue(job);
    }

    method Enqueue(job: JobRow)
      requires Valid() && me < |db.handlers| && db.handlers[me] == Enqueueing(job)
      modifies this`db
      ensures Valid() && db == old(db).(queue := old(db).queue + [job], handlers := old(db).handlers[me := Done])
      ensures db.lock != Some(me)
    {
      Go(At(Done).(queue := db.queue + [job]));
      HoldersAreHandlers(db, me);
    }

    /** start_vm, stop_vm, reboot_vm, reinstall_vm and delete_vm: a request is refused exactly
        when its state guard fails on the row as it is read, and then changes nothing. */
    method RequestJobFor(kind: JobKind, v: VmRow) returns (job: Option<JobRow>)
      requires Valid() && me == |db.handlers|
      modifies this`db, this`waits
      ensures Valid()
      ensures job.Some? <==> v < |old(db).vms| && Acceptable(kind, old(db).vms[v])
      ensures job.None? ==> db == old(db)
      ensures job.Some? ==> JustEnqueued(db, job.value, kind, v) && job.value >= |old(db.jobs)|
    {
      if v >= |db.vms| || !GuardPasses(kind, db.vms[v]) {
        return None;
      }
      Do(db.(handlers := db.handlers + [Guarded(kind, v)]), RequestJob(kind, v));
      var j := CommitAndEnqueue(kind, v);
      return Some(j);
    }

    /** recheck_ssh: the column is written only when the session saw another value. */
    method RecheckSsh(v: VmRow) returns (job: Option<JobRow>)
      requires Valid() && me == |db.handlers|
      modifies this`db, this`waits
      ensures Valid()
      ensures job.Some? <==> v < |old(db).vms| && !old(db).vms[v].deleted && old(db).vms[v].status == Running
      ensures job.None? ==> db == old(db)
      ensures job.Some? ==> JustEnqueued(db, job.value, SshCheck, v) && job.value >= |old(db.jobs)|
    {
      if v >= |db.vms| || db.vms[v].deleted || db.vms[v].status != Running {
        return None;
      }
      var seen := db.vms[v].ssh;
      Do(db.(handlers := db.handlers + [SshGuarded(v, seen)]), RequestSshCheck(v));
      Wait();
      ResetSsh(v, seen);
      var j := CommitAndEnqueue(SshCheck, v);
      return Some(j);
    }

    /** The first commit of recheck_ssh: the row shows the check as pending, unless the
        handler's session had read just that. */
    method ResetSsh(v: VmRow, seen: SshStatus)
      requires Valid() && me < |db.handlers| && db.handlers[me] == SshGuarded(v, seen) && v < |db.vms|
      modifies this`db
      ensures Valid() && v < |db.vms| && |db.jobs| == |old(db).jobs|
      ensures db.handlers == old(db).handlers[me := SshReset(v)]
      ensures db.vms[v] == if seen == SshPending then old(db).vms[v] else old(db).vms[v].(ssh := SshPending)
      ensures forall u :: 0 <= u < |db.vms| && u != v ==> u < |old(db).vms| && db.vms[u] == old(db).vms[u]
    {
      if seen != SshPending {
        Go(At(SshReset(v)).(vms := db.vms[v := db.vms[v].(ssh := SshPending)]));
      } else {
        Go(At(SshReset(v)));
      }
    }
  }

  /** Whoever holds the lock is a handler under way. */
  lemma HoldersAreHandlers(s: State, i: nat)
    requires Inv(s)
    ensures s.lock == Some(i) ==> i < |s.handlers| && HoldsLock(s.handlers[i])
  {
  }
}
