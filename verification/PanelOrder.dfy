/** Conservation from the order of requests: if nothing that destroys a VM's guest is enqueued
    once a delete of that VM is, then every job is harmless when it starts. The queue being
    first in, first out is what carries this. */
module PanelOrder {
  import opened Entities
  import opened Panel
  import opened PanelConservation
  import opened PanelFrames
  import opened PanelInvariant
  import opened PanelLocal
  import opened PanelRows
  import opened PanelTheorems
  import opened PanelTickets

  /** Jobs that destroy the guest of their VM. */
  predicate Destroys(kind: JobKind) {
    kind == ReinstallVm || kind == DeleteVm
  }

  predicate IsDeleteOf(jobs: seq<Job>, j: JobRow, v: VmRow) {
    j < |jobs| && jobs[j].kind == DeleteVm && jobs[j].vm == v
  }

  predicate DestroysFor(jobs: seq<Job>, j: JobRow, v: VmRow) {
    j < |jobs| && Destroys(jobs[j].kind) && jobs[j].vm == v
  }

  /** VM v is deleted, or a delete of it is queued or with the worker. */
  predicate DeleteAhead(s: State, v: VmRow) {
    || (v < |s.vms| && s.vms[v].deleted)
    || (exists i :: 0 <= i < |s.queue| && IsDeleteOf(s.jobs, s.queue[i], v))
    || (s.worker.Busy? && IsDeleteOf(s.jobs, s.worker.job, v))
  }

  /** A handler that enqueues a reinstall or delete finds no delete of that VM ahead. */
  predicate Orderly(s: State, step: Step) {
    step.Advance? && CanAdvance(s, step.handler) && s.handlers[step.handler].Enqueueing? ==>
      var j := s.handlers[step.handler].job;
      j < |s.jobs| && Destroys(s.jobs[j].kind) ==> !DeleteAhead(s, s.jobs[j].vm)
  }

  // ---------------------------------------------------------------- the invariant

  /** No destroying job of a VM is queued behind a delete of it. */
  ghost predicate NoneBehind(jobs: seq<Job>, queue: seq<JobRow>) {
    forall i, k, v: VmRow {:trigger IsDeleteOf(jobs, queue[i], v), DestroysFor(jobs, queue[k], v)} ::
      0 <= i < k < |queue| && IsDeleteOf(jobs, queue[i], v) ==> !DestroysFor(jobs, queue[k], v)
  }

  /** Nor while the worker is at its delete. */
  ghost predicate NoneBehindWorker(jobs: seq<Job>, queue: seq<JobRow>, w: Worker) {
    w.Busy? ==>
      forall k, v: VmRow {:trigger DestroysFor(jobs, queue[k], v)} ::
        0 <= k < |queue| && IsDeleteOf(jobs, w.job, v) ==> !DestroysFor(jobs, queue[k], v)
  }

  /** The VMs of queued destroying jobs are live. */
  ghost predicate QueuedLive(vms: seq<Vm>, jobs: seq<Job>, queue: seq<JobRow>) {
    forall k, v: VmRow {:trigger DestroysFor(jobs, queue[k], v)} ::
      0 <= k < |queue| && DestroysFor(jobs, queue[k], v) ==> v < |vms| && !vms[v].deleted
  }

  ghost predicate LoadedLive(vms: seq<Vm>, jobs: seq<Job>, w: Worker) {
    w.Busy? && w.at.Loaded? ==> forall v: VmRow :: DestroysFor(jobs, w.job, v) ==> v < |vms| && !vms[v].deleted
  }

  ghost predicate Ordered(s: State) {
    && NoneBehind(s.jobs, s.queue)
    && NoneBehindWorker(s.jobs, s.queue, s.worker)
    && QueuedLive(s.vms, s.jobs, s.queue)
    && LoadedLive(s.vms, s.jobs, s.worker)
  }

  lemma OrderedMeansHarmless(s: State)
    requires WorkerOk(s) && s.worker.Busy? && s.worker.at.Loaded? && Ordered(s)
    ensures Harmless(LocalOf(s))
  {
    var v := LocalOf(s).v;
    assert Destroys(LocalOf(s).job.kind) ==> DestroysFor(s.jobs, s.worker.job, v);
  }

  /** Job rows keep type and VM; no row of a queued destroying job, or of the worker's, is
      newly deleted. */
  ghost predicate JobsKept(s: State, s': State) {
    && |s.jobs| <= |s'.jobs|
    && forall j :: 0 <= j < |s.jobs| ==> s'.jobs[j].kind == s.jobs[j].kind && s'.jobs[j].vm == s.jobs[j].vm
  }

  ghost predicate RowsStayLive(s: State, s': State) {
    && |s.vms| <= |s'.vms|
    && forall v :: 0 <= v < |s.vms| && !s.vms[v].deleted && s'.vms[v].deleted ==>
         s.worker.Busy? && IsDeleteOf(s.jobs, s.worker.job, v)
  }

  /** A step that leaves the queue as it is, and takes no job. */
  lemma SameQueueKeepsOrdered(s: State, s': State)
    requires QueueOk(s.jobs, s.queue) && WorkerOk(s) && Ordered(s) && JobsKept(s, s') && RowsStayLive(s, s')
    requires s'.queue == s.queue
    requires s'.worker.Busy? ==> s.worker.Busy? && s'.worker.job == s.worker.job
    requires s'.worker.Busy? && s'.worker.at.Loaded? ==>
      s.worker.at.Loaded? && forall v :: 0 <= v < |s.vms| && s'.vms[v].deleted ==> s.vms[v].deleted
    ensures Ordered(s')
  {
    forall k, v: VmRow | 0 <= k < |s.queue| && DestroysFor(s'.jobs, s.queue[k], v)
      ensures DestroysFor(s.jobs, s.queue[k], v)
    {
      assert IsQueued(s.jobs, s.queue[k]);
    }
    forall i, v: VmRow | 0 <= i < |s.queue| && IsDeleteOf(s'.jobs, s.queue[i], v)
      ensures IsDeleteOf(s.jobs, s.queue[i], v)
    {
      assert IsQueued(s.jobs, s.queue[i]);
    }
  }

  /** A step that puts a job at the end of the queue. */
  lemma EnqueueKeepsOrdered(s: State, s': State, j: JobRow)
    requires Ordered(s) && s'.vms == s.vms && s'.jobs == s.jobs && s'.queue == s.queue + [j]
    requires s'.worker == s.worker || s'.worker.Idle?
    requires forall v: VmRow :: DestroysFor(s.jobs, j, v) ==> v < |s.vms| && !DeleteAhead(s, v)
    ensures Ordered(s')
  {
    forall i, k, v: VmRow | 0 <= i < k < |s'.queue| && IsDeleteOf(s.jobs, s'.queue[i], v)
      ensures !DestroysFor(s.jobs, s'.queue[k], v)
    {
      assert s'.queue[i] == s.queue[i];
      if k < |s.queue| { assert s'.queue[k] == s.queue[k]; }
    }
    forall k, v: VmRow | 0 <= k < |s'.queue| && DestroysFor(s.jobs, s'.queue[k], v)
      ensures !s.vms[v].deleted && (s.worker.Busy? ==> !IsDeleteOf(s.jobs, s.worker.job, v))
    {
      if k < |s.queue| { assert s'.queue[k] == s.queue[k]; }
    }
  }

  lemma TakeKeepsOrdered(s: State)
    requires CanTake(s) && Ordered(s)
    ensures Ordered(TakeJob(s))
  {
    var s' := TakeJob(s);
    forall k | 0 <= k < |s'.queue| ensures s'.queue[k] == s.queue[k + 1] {}
    assert s.queue[0] == s'.worker.job;
  }

  /** Only a delete job marks its row deleted. */
  lemma BodyDeletesOnlyInDelete(l: Local, a: Answer)
    requires KindOk(l) && !EdgePlace(l.at) && CanAnswer(l, a)
    ensures DoBody(l, a).vm.deleted && !l.vm.deleted ==> l.job.kind == DeleteVm
  {
    if SetupPlace(l.at) { SetupFrame(l, a); }
  }

  lemma BodyKeepsOrdered(s: State, a: Answer)
    requires Tickets(s) && Rows(s) && CanWork(s, a) && !EdgePlace(s.worker.at) && Ordered(s)
    ensures Ordered(DoWork(s, a))
  {
    var l := LocalOf(s);
    BodyFrame(l, a);
    BodyDeletesOnlyInDelete(l, a);
    SameQueueKeepsOrdered(s, DoWork(s, a));
  }

  lemma EdgeKeepsOrdered(s: State, a: Answer)
    requires Tickets(s) && CanWork(s, a) && EdgePlace(s.worker.at) && Ordered(s)
    ensures Ordered(DoWork(s, a))
  {
    if s.worker.at.PutSpawned? {
      EnqueueKeepsOrdered(s, DoWork(s, a), s.worker.at.check);
    } else {
      SameQueueKeepsOrdered(s, DoWork(s, a));
    }
  }

  lemma AdvanceKeepsOrdered(s: State, i: nat)
    requires Tickets(s) && CanAdvance(s, i) && Ordered(s) && Orderly(s, Advance(i))
    ensures Ordered(AdvanceHandler(s, i))
  {
    if s.handlers[i].Enqueueing? {
      EnqueueKeepsOrdered(s, AdvanceHandler(s, i), s.handlers[i].job);
    } else {
      SameQueueKeepsOrdered(s, AdvanceHandler(s, i));
    }
  }

  lemma StepKeepsOrdered(s: State, step: Step)
    requires Inv(s) && Ordered(s) && s.phase == Serving && Enabled(s, step) && !step.Crash? && Orderly(s, step)
    ensures Ordered(Apply(s, step)) && Apply(s, step).phase == Serving
  {
    if step.Take? { TakeKeepsOrdered(s); }
    else if step.Advance? { AdvanceKeepsOrdered(s, step.handler); }
    else if step.Work? {
      if EdgePlace(s.worker.at) { EdgeKeepsOrdered(s, step.answer); } else { BodyKeepsOrdered(s, step.answer); }
    } else {
      SameQueueKeepsOrdered(s, Apply(s, step));
    }
  }

  // ---------------------------------------------------------------- runs

  lemma {:induction false} OrderlyRun(run: seq<State>, steps: seq<Step>, n: nat)
    requires |run| == |steps| + 1 && Follows(run, steps) && n <= |steps|
    requires Inv(run[0]) && Ordered(run[0]) && run[0].phase == Serving
    requires forall i :: 0 <= i < n ==> !steps[i].Crash? && Orderly(run[i], steps[i])
    ensures Inv(run[n]) && Ordered(run[n]) && run[n].phase == Serving
  {
    if n > 0 {
      OrderlyRun(run, steps, n - 1);
      StepKeepsInv(run[n - 1], steps[n - 1]);
      StepKeepsOrdered(run[n - 1], steps[n - 1]);
    }
  }

  /** Conservation by requests: from a serving panel at rest whose guests are its live rows,
      over any run without crash and lost task in which no handler enqueues a reinstall or
      delete of a VM once that VM is deleted or a delete of it is queued or running, every
      job is harmless when it starts, and whenever the worker is idle the guests are the
      live rows again. */
  lemma OrderlyRunConserves(run: seq<State>, steps: seq<Step>, n: nat)
    requires |run| == |steps| + 1 && Follows(run, steps) && n <= |steps| && Reachable(run[0])
    requires run[0].phase == Serving && run[0].worker.Idle? && run[0].queue == []
    requires Exact(run[0]) && run[0].doomed == {}
    requires forall i :: 0 <= i < n ==> Calm(run[i], steps[i]) && Orderly(run[i], steps[i])
    ensures forall i, j :: 0 <= i < n && Starts(run[i], steps[i], j) ==> WorkerOk(run[i]) && Harmless(LocalOf(run[i]))
    ensures run[n].worker.Idle? ==> Exact(run[n])
  {
    ReachableInv(run[0]);
    forall i | 0 <= i < n && steps[i].Work? && run[i].worker.Busy? && run[i].worker.at.Loaded?
      ensures WorkerOk(run[i]) && Harmless(LocalOf(run[i]))
    {
      OrderlyRun(run, steps, i);
      OrderedMeansHarmless(run[i]);
    }
    CalmRunConserves(run, steps, n);
  }
}
