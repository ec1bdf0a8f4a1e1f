/** Queue discipline: every job that waits to run has exactly one ticket (a place in the
    queue, a handler about to enqueue it, or the worker), and only the worker runs jobs. */
module PanelTickets {
  import opened Wrappers
  import opened Entities
  import opened Panel
  import opened PanelFrames

  function HandlerTicket(h: Handler): Option<JobRow> {
    match h
    case Inserted(j) => Some(j)
    case Enqueueing(j) => Some(j)
    case _ => None
  }

  function WorkerTicket(w: Worker): Option<JobRow> {
    if w.Busy? && w.at.Loaded? then Some(w.job)
    else if w.Busy? && w.at.PutSpawned? then Some(w.at.check)
    else None
  }

  predicate IsQueued(jobs: seq<Job>, j: JobRow) {
    j < |jobs| && jobs[j].status == JobQueued
  }

  /** Each row that a handler refers to exists. */
  ghost predicate HandlerRefs(vmCount: nat, handlers: seq<Handler>) {
    forall i :: 0 <= i < |handlers| ==>
      match handlers[i]
      case Guarded(_, v) => v < vmCount
      case SshGuarded(v, _) => v < vmCount
      case SshReset(v) => v < vmCount
      case _ => true
  }

  ghost predicate PhaseOk(s: State) {
    && (!s.phase.Serving? ==> s.handlers == [] && s.lock == None)
    && (s.phase.Down? || s.phase.Marked? ==> s.queue == [] && s.worker == Idle)
  }

  ghost predicate QueueOk(jobs: seq<Job>, queue: seq<JobRow>) {
    && (forall i :: 0 <= i < |queue| ==> IsQueued(jobs, queue[i]))
    && (forall i, k :: 0 <= i < k < |queue| ==> queue[i] != queue[k])
  }

  ghost predicate WorkerTicketOk(jobs: seq<Job>, queue: seq<JobRow>, w: Worker) {
    var t := WorkerTicket(w);
    && (t.Some? ==> IsQueued(jobs, t.value) && t.value !in queue)
    && (w.Busy? && w.at.PutSpawned? ==> w.at.check < |jobs| && jobs[w.at.check].kind == SshCheck)
  }

  ghost predicate HandlerTicketsOk(jobs: seq<Job>, queue: seq<JobRow>, w: Worker, handlers: seq<Handler>) {
    && (forall i {:trigger handlers[i]} :: 0 <= i < |handlers| ==>
          var t := HandlerTicket(handlers[i]);
          t.Some? ==> IsQueued(jobs, t.value) && t.value !in queue && WorkerTicket(w) != t)
    && (forall i, k {:trigger handlers[i], handlers[k]} :: 0 <= i < k < |handlers| ==>
          HandlerTicket(handlers[i]).Some? ==> HandlerTicket(handlers[i]) != HandlerTicket(handlers[k]))
  }

  ghost predicate RequeueOk(jobs: seq<Job>, queue: seq<JobRow>, w: Worker, phase: Phase) {
    phase.Requeued? ==>
      && (forall j: JobRow :: j in phase.unresumable ==> j !in queue && WorkerTicket(w) != Some(j))
      && (forall j: JobRow :: j in phase.unresumable ==> IsQueued(jobs, j) && NeedsPassword(jobs[j].kind))
      && (forall j: JobRow :: j < |jobs| && jobs[j].status == JobQueued && NeedsPassword(jobs[j].kind) ==> j in phase.unresumable)
  }

  /** No waiting job is forgotten: its ticket exists, or startup will still look at its row. */
  ghost predicate HasTicket(queue: seq<JobRow>, w: Worker, handlers: seq<Handler>, phase: Phase, j: JobRow) {
    || j in queue
    || WorkerTicket(w) == Some(j)
    || (exists i :: 0 <= i < |handlers| && HandlerTicket(handlers[i]) == Some(j))
    || phase.Down? || phase.Marked?
    || (phase.Requeued? && j in phase.unresumable)
  }

  ghost predicate NoLoss(s: State) {
    forall j: JobRow :: IsQueued(s.jobs, j) ==> HasTicket(s.queue, s.worker, s.handlers, s.phase, j)
  }

  /** Job rows committed as running: only the worker's while the process is up. */
  ghost predicate RunningOk(jobs: seq<Job>, w: Worker, phase: Phase) {
    && (w.Busy? && InBody(w.at) ==> w.job < |jobs| && jobs[w.job].status == JobRunning)
    && (w.Busy? && (w.at.Spawn? || w.at.PutSpawned?) ==> w.job < |jobs| && jobs[w.job].status == JobSuccess)
    && (!phase.Down? ==>
          forall j :: 0 <= j < |jobs| && jobs[j].status == JobRunning ==>
            w.Busy? && w.job == j && InBody(w.at))
    && (forall j, k :: 0 <= j < k < |jobs| ==>
          !(jobs[j].status == JobRunning && jobs[k].status == JobRunning))
  }

  /** A body once started is never queued again, and none was started twice. */
  ghost predicate StartedOk(jobs: seq<Job>, started: seq<JobRow>) {
    && (forall i :: 0 <= i < |started| ==>
          started[i] < |jobs| && jobs[started[i]].status != JobQueued)
    && (forall i, k :: 0 <= i < k < |started| ==> started[i] != started[k])
  }

  ghost predicate Tickets(s: State) {
    && WorkerOk(s) && PhaseOk(s)
    && HandlerRefs(|s.vms|, s.handlers)
    && QueueOk(s.jobs, s.queue)
    && WorkerTicketOk(s.jobs, s.queue, s.worker)
    && HandlerTicketsOk(s.jobs, s.queue, s.worker, s.handlers)
    && RequeueOk(s.jobs, s.queue, s.worker, s.phase)
    && RunningOk(s.jobs, s.worker, s.phase)
    && StartedOk(s.jobs, s.started)
  }

  /** Passing the lock around moves no ticket. */
  lemma LockKeepsTickets(s: State, i: nat)
    requires Tickets(s) && CanAdvance(s, i)
    requires s.handlers[i].AwaitLock? || s.handlers[i].Locked? || s.handlers[i].Inserted?
    ensures Tickets(AdvanceHandler(s, i))
  {
  }

  lemma InsertVmKeepsTickets(s: State, i: nat)
    requires Tickets(s) && CanAdvance(s, i) && s.handlers[i].Rechecked?
    ensures Tickets(AdvanceHandler(s, i))
  {
  }

  lemma InsertJobKeepsTickets(s: State, i: nat)
    requires Tickets(s) && CanAdvance(s, i)
    requires s.handlers[i].Guarded? || s.handlers[i].SshReset?
    ensures Tickets(AdvanceHandler(s, i))
  {
  }

  lemma ResetSshKeepsTickets(s: State, i: nat)
    requires Tickets(s) && CanAdvance(s, i) && s.handlers[i].SshGuarded?
    ensures Tickets(AdvanceHandler(s, i))
  {
  }

  lemma EnqueueKeepsTickets(s: State, i: nat)
    requires Tickets(s) && CanAdvance(s, i) && s.handlers[i].Enqueueing?
    ensures Tickets(AdvanceHandler(s, i))
  {
  }

  lemma AdvanceKeepsTickets(s: State, i: nat)
    requires Tickets(s) && CanAdvance(s, i)
    ensures Tickets(AdvanceHandler(s, i))
  {
    match s.handlers[i]
    case Rechecked(_, _) => InsertVmKeepsTickets(s, i);
    case Guarded(_, _) => InsertJobKeepsTickets(s, i);
    case SshReset(_) => InsertJobKeepsTickets(s, i);
    case SshGuarded(_, _) => ResetSshKeepsTickets(s, i);
    case Enqueueing(_) => EnqueueKeepsTickets(s, i);
    case _ => LockKeepsTickets(s, i);
  }

  lemma TakeKeepsTickets(s: State)
    requires Tickets(s) && CanTake(s)
    ensures Tickets(TakeJob(s))
  {
  }

  lemma BodyKeepsTickets(s: State, a: Answer)
    requires Tickets(s) && CanWork(s, a) && !EdgePlace(s.worker.at)
    ensures Tickets(DoWork(s, a))
  {
    BodyFrame(LocalOf(s), a);
  }

  lemma StartKeepsTickets(s: State, a: Answer)
    requires Tickets(s) && CanWork(s, a) && s.worker.at.Loaded?
    ensures Tickets(DoWork(s, a))
  {
  }

  lemma FinishKeepsTickets(s: State, a: Answer)
    requires Tickets(s) && CanWork(s, a) && s.worker.at.Finish?
    ensures Tickets(DoWork(s, a))
  {
  }

  lemma FailKeepsTickets(s: State, a: Answer)
    requires Tickets(s) && CanWork(s, a) && s.worker.at.Failing?
    ensures Tickets(DoWork(s, a))
  {
  }

  lemma SpawnKeepsTickets(s: State, a: Answer)
    requires Tickets(s) && CanWork(s, a) && s.worker.at.Spawn?
    ensures Tickets(DoWork(s, a))
  {
  }

  lemma PutSpawnedKeepsTickets(s: State, a: Answer)
    requires Tickets(s) && CanWork(s, a) && s.worker.at.PutSpawned?
    ensures Tickets(DoWork(s, a))
  {
  }

  lemma WorkKeepsTickets(s: State, a: Answer)
    requires Tickets(s) && CanWork(s, a)
    ensures Tickets(DoWork(s, a))
  {
    if s.worker.at.Loaded? { StartKeepsTickets(s, a); }
    else if s.worker.at.Finish? { FinishKeepsTickets(s, a); }
    else if s.worker.at.Failing? { FailKeepsTickets(s, a); }
    else if s.worker.at.Spawn? { SpawnKeepsTickets(s, a); }
    else if s.worker.at.PutSpawned? { PutSpawnedKeepsTickets(s, a); }
    else { BodyKeepsTickets(s, a); }
  }

  /** A request changes nothing but the list of handlers. */
  lemma RequestKeepsTickets(s: State, step: Step)
    requires Tickets(s) && Enabled(s, step)
    requires step.RequestCreate? || step.RequestJob? || step.RequestSshCheck? || step.Abandon?
    ensures Tickets(Apply(s, step))
  {
  }

  lemma OutsideKeepsTickets(s: State, step: Step)
    requires Tickets(s) && Enabled(s, step) && (step.Vanish? || step.Crash?)
    ensures Tickets(Apply(s, step))
  {
  }

  lemma StartupKeepsTickets(s: State, step: Step)
    requires Tickets(s) && Enabled(s, step)
    requires step.MarkOrphans? || step.Requeue? || step.CommitRequeue?
    ensures Tickets(Apply(s, step))
  {
  }

  lemma StepKeepsTickets(s: State, step: Step)
    requires Tickets(s) && Enabled(s, step)
    ensures Tickets(Apply(s, step))
  {
    match step
    case Advance(i) => AdvanceKeepsTickets(s, i);
    case Take => TakeKeepsTickets(s);
    case Work(a) => WorkKeepsTickets(s, a);
    case MarkOrphans => StartupKeepsTickets(s, step);
    case Requeue(_) => StartupKeepsTickets(s, step);
    case CommitRequeue => StartupKeepsTickets(s, step);
    case Vanish(_) => OutsideKeepsTickets(s, step);
    case Crash => OutsideKeepsTickets(s, step);
    case _ => RequestKeepsTickets(s, step);
  }
}
