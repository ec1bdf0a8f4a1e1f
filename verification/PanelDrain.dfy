/** Draining: with no new requests and no crash, the handlers in flight and the worker come
    to rest after a bounded number of steps, with nothing left undone. */
module PanelDrain {
  import opened Entities
  import opened Panel
  import opened PanelFrames
  import opened PanelTickets
  import opened PanelLocal
  import opened PanelRows
  import opened PanelInvariant

  /** A step of the panel itself, as opposed to requests, crashes and Proxmox. */
  predicate IsPanelStep(step: Step) {
    step.Advance? || step.Abandon? || step.Take? || step.Work?
  }

  predicate IsClosing(step: Step) {
    IsPanelStep(step) || step.Vanish?
  }

  /** Steps a queued job may still cost, its SSH check included. */
  function JobWeight(kind: JobKind): nat {
    if kind == SshCheck then 5 else 25
  }

  /** Steps the running job may still cost from its place on. */
  function PlaceWeight(at: Place, kind: JobKind): nat {
    match at
    case Loaded => if kind == SshCheck then 4 else 24
    case Begin => if kind == SshCheck then 3 else 23
    case Resolve => 22
    case StopGuest => 21
    case Destroy => 20
    case AwaitDestroy => 19
    case Destroyed => 18
    case Provision => 17
    case Clone => 16
    case Cloned(_) => 15
    case AwaitClone(_) => 14
    case Configure(_) => 13
    case Resize(_) => 12
    case BootGuest(_) => 11
    case AwaitIp(_) => 10
    case ResetIdentity(_) => 9
    case PowerCall => 10
    case PowerIp => 9
    case Probe => 2
    case Finish => if SpawnsCheck(kind) then 8 else 1
    case Spawn => 7
    case PutSpawned(_) => 6
    case Failing => 1
  }

  /** Steps a handler may still cost, the job it enqueues included. */
  function HandlerWeight(h: Handler): nat {
    match h
    case AwaitLock(_, _) => 30
    case Locked(_, _) => 29
    case Rechecked(_, _) => 28
    case Inserted(_) => 27
    case Guarded(_, _) => 27
    case SshGuarded(_, _) => 28
    case SshReset(_) => 27
    case Enqueueing(_) => 26
    case Done => 0
  }

  function HandlersWeight(handlers: seq<Handler>): nat {
    if handlers == [] then 0
    else HandlersWeight(handlers[..|handlers| - 1]) + HandlerWeight(handlers[|handlers| - 1])
  }

  function QueueWeight(jobs: seq<Job>, queue: seq<JobRow>): nat
    requires forall i :: 0 <= i < |queue| ==> queue[i] < |jobs|
  {
    if queue == [] then 0
    else QueueWeight(jobs, queue[..|queue| - 1]) + JobWeight(jobs[queue[|queue| - 1]].kind)
  }

  function WorkerWeight(jobs: seq<Job>, w: Worker): nat
    requires w.Busy? ==> w.job < |jobs|
  {
    if w.Busy? then PlaceWeight(w.at, jobs[w.job].kind) else 0
  }

  predicate InRange(jobs: seq<Job>, queue: seq<JobRow>) {
    forall i :: 0 <= i < |queue| ==> queue[i] < |jobs|
  }

  /** An upper bound on the panel steps that the requests accepted so far still cost. */
  function Remaining(s: State): nat
    requires WorkerOk(s) && InRange(s.jobs, s.queue)
  {
    HandlersWeight(s.handlers) + QueueWeight(s.jobs, s.queue) + WorkerWeight(s.jobs, s.worker)
  }

  lemma {:induction false} HandlerReplaced(handlers: seq<Handler>, i: nat, h: Handler)
    requires i < |handlers|
    ensures HandlersWeight(handlers[i := h]) ==
      HandlersWeight(handlers) - HandlerWeight(handlers[i]) + HandlerWeight(h)
  {
    var n := |handlers| - 1;
    if i < n {
      HandlerReplaced(handlers[..n], i, h);
      assert handlers[i := h][..n] == handlers[..n][i := h];
    } else {
      assert handlers[i := h][..n] == handlers[..n];
    }
  }

  /** The weight of a queue depends on the types of its jobs alone. */
  lemma {:induction false} QueueWeightSame(jobs: seq<Job>, jobs': seq<Job>, queue: seq<JobRow>)
    requires |jobs| <= |jobs'|
    requires forall i :: 0 <= i < |queue| ==> queue[i] < |jobs| && jobs'[queue[i]].kind == jobs[queue[i]].kind
    ensures QueueWeight(jobs', queue) == QueueWeight(jobs, queue)
  {
    if queue != [] { QueueWeightSame(jobs, jobs', queue[..|queue| - 1]); }
  }

  lemma {:induction false} QueueWeightHead(jobs: seq<Job>, queue: seq<JobRow>)
    requires queue != [] && forall i :: 0 <= i < |queue| ==> queue[i] < |jobs|
    ensures QueueWeight(jobs, queue) == JobWeight(jobs[queue[0]].kind) + QueueWeight(jobs, queue[1..])
  {
    var n := |queue| - 1;
    if n > 0 {
      QueueWeightHead(jobs, queue[..n]);
      assert queue[1..][..n - 1] == queue[..n][1..];
    } else {
      assert queue[..n] == [] && queue[1..] == [];
    }
  }

  lemma QueueWeightAppend(jobs: seq<Job>, queue: seq<JobRow>, j: JobRow)
    requires j < |jobs| && forall i :: 0 <= i < |queue| ==> queue[i] < |jobs|
    ensures QueueWeight(jobs, queue + [j]) == QueueWeight(jobs, queue) + JobWeight(jobs[j].kind)
  {
    assert (queue + [j])[..|queue|] == queue;
  }

  lemma EnqueueCosts(s: State, i: nat)
    requires WorkerOk(s) && InRange(s.jobs, s.queue) && CanAdvance(s, i)
    requires s.handlers[i].Enqueueing? && s.handlers[i].job < |s.jobs|
    ensures var s' := AdvanceHandler(s, i);
      WorkerOk(s') && InRange(s'.jobs, s'.queue) && Remaining(s') < Remaining(s)
  {
    HandlerReplaced(s.handlers, i, Done);
    QueueWeightAppend(s.jobs, s.queue, s.handlers[i].job);
  }

  /** A handler that inserts its rows. */
  lemma InsertCosts(s: State, i: nat)
    requires WorkerOk(s) && HandlerRefs(|s.vms|, s.handlers) && InRange(s.jobs, s.queue) && CanAdvance(s, i)
    requires s.handlers[i].Rechecked? || s.handlers[i].Guarded? || s.handlers[i].SshReset?
    ensures var s' := AdvanceHandler(s, i);
      WorkerOk(s') && InRange(s'.jobs, s'.queue) && Remaining(s') < Remaining(s)
  {
    var s' := AdvanceHandler(s, i);
    HandlerReplaced(s.handlers, i, s'.handlers[i]);
    QueueWeightSame(s.jobs, s'.jobs, s.queue);
  }

  lemma PassCosts(s: State, i: nat)
    requires WorkerOk(s) && HandlerRefs(|s.vms|, s.handlers) && InRange(s.jobs, s.queue) && CanAdvance(s, i)
    requires s.handlers[i].AwaitLock? || s.handlers[i].Locked? || s.handlers[i].Inserted? || s.handlers[i].SshGuarded?
    ensures var s' := AdvanceHandler(s, i);
      WorkerOk(s') && InRange(s'.jobs, s'.queue) && Remaining(s') < Remaining(s)
  {
    HandlerReplaced(s.handlers, i, AdvanceHandler(s, i).handlers[i]);
  }

  lemma AdvanceCosts(s: State, i: nat)
    requires WorkerOk(s) && HandlerRefs(|s.vms|, s.handlers) && InRange(s.jobs, s.queue) && CanAdvance(s, i)
    requires s.handlers[i].Enqueueing? ==> s.handlers[i].job < |s.jobs|
    ensures var s' := AdvanceHandler(s, i);
      WorkerOk(s') && InRange(s'.jobs, s'.queue) && Remaining(s') < Remaining(s)
  {
    var h := s.handlers[i];
    if h.Enqueueing? { EnqueueCosts(s, i); }
    else if h.Rechecked? || h.Guarded? || h.SshReset? { InsertCosts(s, i); }
    else { PassCosts(s, i); }
  }

  lemma BodyWeighsLess(l: Local, a: Answer)
    requires KindOk(l) && !EdgePlace(l.at) && CanAnswer(l, a)
    ensures PlaceWeight(DoBody(l, a).at, l.job.kind) < PlaceWeight(l.at, l.job.kind)
  {
  }

  lemma BodyCosts(s: State, a: Answer)
    requires Rows(s) && InRange(s.jobs, s.queue) && CanWork(s, a) && !EdgePlace(s.worker.at)
    ensures var s' := DoWork(s, a);
      WorkerOk(s') && InRange(s'.jobs, s'.queue) && Remaining(s') < Remaining(s)
  {
    var s' := DoWork(s, a);
    BodyFrame(LocalOf(s), a);
    BodyWeighsLess(LocalOf(s), a);
    QueueWeightSame(s.jobs, s'.jobs, s.queue);
  }

  lemma PutSpawnedCosts(s: State)
    requires WorkerOk(s) && InRange(s.jobs, s.queue) && s.worker.Busy? && s.worker.at.PutSpawned?
    requires WorkerTicketOk(s.jobs, s.queue, s.worker)
    ensures var s' := DoEdge(s);
      WorkerOk(s') && InRange(s'.jobs, s'.queue) && Remaining(s') < Remaining(s)
  {
    QueueWeightAppend(s.jobs, s.queue, s.worker.at.check);
  }

  lemma EdgeCosts(s: State)
    requires WorkerOk(s) && InRange(s.jobs, s.queue) && s.worker.Busy? && EdgePlace(s.worker.at)
    requires !s.worker.at.PutSpawned?
    ensures var s' := DoEdge(s);
      WorkerOk(s') && InRange(s'.jobs, s'.queue) && Remaining(s') < Remaining(s)
  {
    QueueWeightSame(s.jobs, DoEdge(s).jobs, s.queue);
  }

  lemma WorkCosts(s: State, a: Answer)
    requires Tickets(s) && Rows(s) && CanWork(s, a)
    ensures var s' := DoWork(s, a);
      WorkerOk(s') && InRange(s'.jobs, s'.queue) && Remaining(s') < Remaining(s)
  {
    if s.worker.at.PutSpawned? { PutSpawnedCosts(s); }
    else if EdgePlace(s.worker.at) { EdgeCosts(s); }
    else { BodyCosts(s, a); }
  }

  ghost predicate Drops(s: State, s': State, step: Step) {
    && WorkerOk(s) && InRange(s.jobs, s.queue)
    && WorkerOk(s') && InRange(s'.jobs, s'.queue)
    && Remaining(s') + (if IsPanelStep(step) then 1 else 0) <= Remaining(s)
  }

  /** Every step of the panel itself lowers the bound; guests that vanish leave it alone. */
  lemma ClosingCosts(s: State, step: Step)
    requires Tickets(s) && Rows(s) && Enabled(s, step) && IsClosing(step)
    ensures Drops(s, Apply(s, step), step)
  {
    if step.Work? {
      WorkCosts(s, step.answer);
    } else if step.Advance? {
      AdvanceCosts(s, step.handler);
    } else if step.Abandon? {
      HandlerReplaced(s.handlers, step.handler, Done);
    } else if step.Take? {
      QueueWeightHead(s.jobs, s.queue);
    }
  }

  function PanelSteps(steps: seq<Step>): nat {
    if steps == [] then 0
    else PanelSteps(steps[..|steps| - 1]) + if IsPanelStep(steps[|steps| - 1]) then 1 else 0
  }

  lemma {:induction false} DrainBound(run: seq<State>, steps: seq<Step>, n: nat)
    requires |run| == |steps| + 1 && n <= |steps|
    requires WorkerOk(run[0]) && InRange(run[0].jobs, run[0].queue)
    requires forall i :: 0 <= i < |steps| ==> Drops(run[i], run[i + 1], steps[i])
    ensures WorkerOk(run[n]) && InRange(run[n].jobs, run[n].queue)
    ensures Remaining(run[n]) + PanelSteps(steps[..n]) <= Remaining(run[0])
  {
    if n > 0 {
      DrainBound(run, steps, n - 1);
      assert Drops(run[n - 1], run[n - 1 + 1], steps[n - 1]);
      assert steps[..n][..n - 1] == steps[..n - 1];
    } else {
      assert steps[..n] == [];
    }
  }

  /** Nothing is left to do. */
  ghost predicate AtRest(s: State) {
    && s.worker.Idle? && s.queue == []
    && forall i :: 0 <= i < |s.handlers| ==> s.handlers[i].Done?
  }

  /** An answer that is always possible. */
  function SomeAnswer(l: Local): Answer {
    match l.at
    case Begin => if IsPower(l.job.kind) && l.vm.vmid.None? then OtherFailure else Ok
    case Resolve => ProxmoxFailure
    case Destroy => ProxmoxFailure
    case AwaitDestroy => ProxmoxFailure
    case Clone => ProxmoxFailure
    case Resize(_) => ProxmoxFailure
    case AwaitIp(_) => ProxmoxTimeout
    case ResetIdentity(_) => ProxmoxTimeout
    case PowerIp => ProxmoxTimeout
    case _ => Ok
  }

  /** No deadlock: unless everything is at rest, the panel can take a step. */
  lemma Progress(s: State)
    requires Inv(s) && s.phase == Serving && !AtRest(s)
    ensures exists step :: IsPanelStep(step) && Enabled(s, step)
  {
    if s.worker.Busy? {
      assert Enabled(s, Work(SomeAnswer(LocalOf(s))));
    } else if s.queue != [] {
      assert IsQueued(s.jobs, s.queue[0]);
      assert Enabled(s, Take);
    } else {
      var i: nat :| i < |s.handlers| && !s.handlers[i].Done?;
      if s.handlers[i].AwaitLock? && s.lock.Some? {
        assert HoldsLock(s.handlers[s.lock.value]);
        assert Enabled(s, Advance(s.lock.value));
      } else {
        assert Enabled(s, Advance(i));
      }
    }
  }

  /** At rest every job has ended and no live VM is in an interrupted status. */
  lemma RestIsDone(s: State)
    requires Inv(s) && s.phase == Serving && AtRest(s)
    ensures forall j :: 0 <= j < |s.jobs| ==> s.jobs[j].status in {JobSuccess, JobFailed}
    ensures forall v :: 0 <= v < |s.vms| ==> Steady(s.vms[v])
  {
    forall j: JobRow | j < |s.jobs| ensures s.jobs[j].status in {JobSuccess, JobFailed} {
      assert !IsQueued(s.jobs, j);
    }
  }

  /** Queue drain: without new requests and crashes the panel takes boundedly many steps,
      and when it can take no further one, all is done. */
  lemma Drains(run: seq<State>, steps: seq<Step>)
    requires |run| == |steps| + 1 && Follows(run, steps) && Reachable(run[0]) && run[0].phase == Serving
    requires forall i :: 0 <= i < |steps| ==> IsClosing(steps[i])
    ensures WorkerOk(run[0]) && InRange(run[0].jobs, run[0].queue)
    ensures PanelSteps(steps) <= Remaining(run[0])
    ensures (forall step :: IsPanelStep(step) ==> !Enabled(run[|steps|], step)) ==>
      && (forall j :: 0 <= j < |run[|steps|].jobs| ==> run[|steps|].jobs[j].status in {JobSuccess, JobFailed})
      && (forall v :: 0 <= v < |run[|steps|].vms| ==> Steady(run[|steps|].vms[v]))
  {
    ReachableInv(run[0]);
    forall i | 0 <= i < |steps| ensures Drops(run[i], run[i + 1], steps[i]) {
      FollowsKeepsInv(run, steps, i);
      ClosingCosts(run[i], steps[i]);
    }
    DrainBound(run, steps, |steps|);
    assert steps[..|steps|] == steps;
    FollowsKeepsInv(run, steps, |steps|);
    StaysServing(run, steps, |steps|);
    if forall step :: IsPanelStep(step) ==> !Enabled(run[|steps|], step) {
      if !AtRest(run[|steps|]) { Progress(run[|steps|]); }
      RestIsDone(run[|steps|]);
    }
  }

  lemma {:induction false} StaysServing(run: seq<State>, steps: seq<Step>, n: nat)
    requires |run| == |steps| + 1 && Follows(run, steps) && n <= |steps| && run[0].phase == Serving
    requires forall i :: 0 <= i < |steps| ==> IsClosing(steps[i])
    ensures run[n].phase == Serving
  {
    if n > 0 {
      StaysServing(run, steps, n - 1);
      assert Enabled(run[n - 1], steps[n - 1]) && run[n] == Apply(run[n - 1], steps[n - 1]);
    }
  }
}
