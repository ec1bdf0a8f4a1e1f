/** Startup recovery as the source runs it, in place on the rows, and what it restores. */
module PanelRecovery {
  import opened Wrappers
  import opened Entities
  import opened Panel
  import opened PanelTickets
  import opened PanelLocal

  /** Job j is one whose clone startup hands to row v. */
  predicate BringsClone(jobs: seq<Job>, j: nat, v: VmRow) {
    j < |jobs| && jobs[j].status == JobRunning && jobs[j].vm == v && jobs[j].target != None
  }

  /** What marking the orphans makes of the row of VM v: a live VM whose status says that
      something was in progress shows error, a row without VMID gets the clone of the first
      running job that has one for it, and nothing else changes. */
  ghost predicate RowMarked(before: Vm, after: Vm, jobs: seq<Job>, v: VmRow) {
    && after.status == (
         if !before.deleted && before.status in {Creating, Provisioning, Starting, Stopping, Rebooting, Deleting}
         then Error else before.status)
    && after.hostname == before.hostname && after.diskGb == before.diskGb && after.deleted == before.deleted
    && after.ssh == before.ssh && after.ip == before.ip
    && (before.vmid.Some? || (forall j: nat :: !BringsClone(jobs, j, v)) ==> after.vmid == before.vmid)
    && (forall j: nat :: before.vmid.None? && BringsClone(jobs, j, v) && (forall i: nat :: i < j ==> !BringsClone(jobs, i, v))
          ==> after.vmid == jobs[j].target)
  }

  /** What startup makes of a job: running ones fail, and in the end so do waiting create and
      reinstall jobs. */
  predicate JobSettled(before: Job, after: Job, complete: bool) {
    && after.kind == before.kind && after.vm == before.vm && after.target == before.target
    && after.status == (
         if before.status == JobRunning then JobFailed
         else if complete && before.status == JobQueued && (before.kind == CreateVm || before.kind == ReinstallVm)
         then JobFailed
         else before.status)
  }

  lemma {:induction false} AdoptedIs(vms: seq<Vm>, jobs: seq<Job>, n: nat, v: VmRow)
    requires n <= |jobs| && v < |vms|
    ensures Adopted(vms, jobs, n)[v] == vms[v].(vmid := Adopted(vms, jobs, n)[v].vmid)
    ensures vms[v].vmid.Some? || (forall j: nat :: j < n ==> !BringsClone(jobs, j, v)) ==>
      Adopted(vms, jobs, n)[v].vmid == vms[v].vmid
    ensures forall j: nat ::
      vms[v].vmid.None? && j < n && BringsClone(jobs, j, v) && (forall i: nat :: i < j ==> !BringsClone(jobs, i, v))
      ==> Adopted(vms, jobs, n)[v].vmid == jobs[j].target
  {
    if n > 0 {
      AdoptedIs(vms, jobs, n - 1, v);
      var brings := BringsClone(jobs, n - 1, v);
    }
  }

  lemma RowsMarked(vms: seq<Vm>, jobs: seq<Job>)
    ensures forall v :: 0 <= v < |vms| ==> RowMarked(vms[v], MarkedVms(vms, jobs)[v], jobs, v)
  {
    forall v | 0 <= v < |vms| ensures RowMarked(vms[v], MarkedVms(vms, jobs)[v], jobs, v) {
      AdoptedIs(vms, jobs, |jobs|, v);
    }
  }

  /** The rows and the queue of a starting process. */
  class Startup {
    var vms: seq<Vm>
    var jobs: seq<Job>
    var queue: seq<JobRow>

    constructor (vms: seq<Vm>, jobs: seq<Job>)
      ensures this.vms == vms && this.jobs == jobs && queue == []
    {
      this.vms, this.jobs, queue := vms, jobs, [];
    }

    /** mark_orphaned_running_as_failed */
    method MarkOrphanedRunningAsFailed()
      modifies this
      ensures vms == MarkedVms(old(vms), old(jobs))
      ensures jobs == MarkedJobs(old(jobs))
      ensures queue == old(queue)
      ensures |vms| == |old(vms)| && forall v :: 0 <= v < |vms| ==> RowMarked(old(vms)[v], vms[v], old(jobs), v)
      ensures |jobs| == |old(jobs)| && forall j :: 0 <= j < |jobs| ==> JobSettled(old(jobs)[j], jobs[j], false)
    {
      ghost var vms0, jobs0 := vms, jobs;
      RowsMarked(vms, jobs);
      for n := 0 to |jobs|
        invariant |jobs| == |jobs0| && queue == old(queue)
        invariant vms == Adopted(vms0, jobs0, n)
        invariant forall j :: 0 <= j < |jobs| ==> jobs[j] == if j < n then FailRunning(jobs0[j]) else jobs0[j]
      {
        var job := jobs[n];
        if job.status == JobRunning {
          jobs := jobs[n := job.(status := JobFailed)];
          if job.target.Some? && job.vm < |vms| {
            var vm := vms[job.vm];
            if vm.vmid.None? {
              vms := vms[job.vm := vm.(vmid := job.target)];
            }
          }
        }
      }
      ghost var adopted := vms;
      for v := 0 to |vms|
        invariant |vms| == |adopted| && jobs == MarkedJobs(jobs0) && queue == old(queue)
        invariant forall u :: 0 <= u < |vms| ==> vms[u] == if u < v then Settle(adopted[u]) else adopted[u]
      {
        if Transient(vms[v].status) && !vms[v].deleted {
          vms := vms[v := vms[v].(status := Error)];
        }
      }
    }

    /** requeue_queued_jobs; rows is what the query for queued jobs returned. */
    method RequeueQueuedJobs(rows: seq<JobRow>) returns (ghost order: seq<JobRow>)
      requires forall i :: 0 <= i < |rows| ==> IsQueued(jobs, rows[i])
      requires forall i, k :: 0 <= i < k < |rows| ==> rows[i] != rows[k]
      requires forall j: JobRow :: IsQueued(jobs, j) ==> j in rows
      modifies this
      ensures IsResumeOrder(old(jobs), order) && queue == old(queue) + order
      ensures jobs == FailListed(old(jobs), Unresumable(old(jobs)))
      ensures vms == old(vms)
    {
      ghost var jobs0 := jobs;
      order := [];
      for n := 0 to |rows|
        invariant |jobs| == |jobs0| && vms == old(vms) && queue == old(queue) + order
        invariant forall i :: 0 <= i < |order| ==> order[i] in rows[..n] && !NeedsPassword(jobs0[order[i]].kind)
        invariant forall i, k :: 0 <= i < k < |order| ==> order[i] != order[k]
        invariant forall i :: 0 <= i < n && !NeedsPassword(jobs0[rows[i]].kind) ==> rows[i] in order
        invariant forall j: JobRow :: j < |jobs| ==>
          jobs[j] == if j in rows[..n] && NeedsPassword(jobs0[j].kind) then jobs0[j].(status := JobFailed) else jobs0[j]
      {
        var j := rows[n];
        assert rows[..n + 1] == rows[..n] + [j];
        assert j !in rows[..n];
        if NeedsPassword(jobs[j].kind) {
          jobs := jobs[j := jobs[j].(status := JobFailed)];
        } else {
          queue := queue + [j];
          order := order + [j];
        }
      }
      assert rows[..|rows|] == rows;
      forall j: JobRow | j < |jobs0| && jobs0[j].status == JobQueued && !NeedsPassword(jobs0[j].kind)
        ensures j in order
      {
        assert IsQueued(jobs0, j);
        var i :| 0 <= i < |rows| && rows[i] == j;
        assert rows[i] in order;
      }
      assert forall j: JobRow :: j < |jobs0| ==> (IsQueued(jobs0, j) <==> j in rows);
    }

    /** lifespan, as far as the engine is concerned; rows is what the query for queued jobs
        returns once the orphans are marked. */
    method Lifespan(rows: seq<JobRow>) returns (ghost order: seq<JobRow>)
      requires forall i :: 0 <= i < |rows| ==> IsQueued(MarkedJobs(jobs), rows[i])
      requires forall i, k :: 0 <= i < k < |rows| ==> rows[i] != rows[k]
      requires forall j: JobRow :: IsQueued(MarkedJobs(jobs), j) ==> j in rows
      requires queue == []
      modifies this
      ensures IsResumeOrder(MarkedJobs(old(jobs)), order) && queue == order
      ensures vms == MarkedVms(old(vms), old(jobs))
      ensures jobs == FailListed(MarkedJobs(old(jobs)), Unresumable(MarkedJobs(old(jobs))))
      ensures |vms| == |old(vms)| && forall v :: 0 <= v < |vms| ==> RowMarked(old(vms)[v], vms[v], old(jobs), v)
      ensures |jobs| == |old(jobs)| && forall j :: 0 <= j < |jobs| ==> JobSettled(old(jobs)[j], jobs[j], true)
    {
      MarkOrphanedRunningAsFailed();
      order := RequeueQueuedJobs(rows);
    }
  }

  /** The rows that a complete recovery leaves. */
  ghost predicate Recovered(before: State, after: State) {
    && after.vms == MarkedVms(before.vms, before.jobs)
    && var jobs := MarkedJobs(before.jobs);
       after.jobs == FailListed(jobs, Unresumable(jobs))
  }

  ghost function Restarted(s: State, order: seq<JobRow>): State
    requires IsResumeOrder(MarkedJobs(s.jobs), order)
  {
    var s1 := DoMark(DoCrash(s));
    var s2 := Apply(s1, Requeue(order));
    Apply(s2, CommitRequeue)
  }

  /** After a crash at any moment, startup leaves no running job, no live VM in an
      interrupted status, no create or reinstall job waiting, and a queue that holds each
      waiting job exactly once. */
  lemma RecoveryIsCorrect(s: State, order: seq<JobRow>)
    requires IsResumeOrder(MarkedJobs(s.jobs), order)
    ensures var r := Restarted(s, order);
      && Recovered(s, r) && r.phase == Serving && r.worker.Idle? && r.queue == order
      && (forall j :: 0 <= j < |r.jobs| ==> r.jobs[j].status != JobRunning)
      && (forall v :: 0 <= v < |r.vms| ==> Steady(r.vms[v]))
      && (forall j :: 0 <= j < |r.jobs| && r.jobs[j].status == JobQueued ==> !NeedsPassword(r.jobs[j].kind))
      && (forall j: JobRow :: IsQueued(r.jobs, j) <==> j in r.queue)
      && (forall i, k :: 0 <= i < k < |r.queue| ==> r.queue[i] != r.queue[k])
  {
  }

  lemma JobsSettled(jobs: seq<Job>)
    ensures var r := FailListed(MarkedJobs(jobs), Unresumable(MarkedJobs(jobs)));
      |r| == |jobs| && forall j :: 0 <= j < |jobs| ==> JobSettled(jobs[j], r[j], true)
  {
  }

  lemma RestartedRows(s: State, order: seq<JobRow>)
    requires IsResumeOrder(MarkedJobs(s.jobs), order)
    ensures var r := Restarted(s, order);
      && r.vms == MarkedVms(s.vms, s.jobs)
      && r.jobs == FailListed(MarkedJobs(s.jobs), Unresumable(MarkedJobs(s.jobs)))
      && r.guests == s.guests && r.doomed == s.doomed && r.started == s.started
  {
  }

  /** What startup makes of each row, column by column. */
  lemma RecoveredRows(s: State, order: seq<JobRow>)
    requires IsResumeOrder(MarkedJobs(s.jobs), order)
    ensures var r := Restarted(s, order);
      && |r.vms| == |s.vms| && (forall v :: 0 <= v < |s.vms| ==> RowMarked(s.vms[v], r.vms[v], s.jobs, v))
      && |r.jobs| == |s.jobs| && (forall j :: 0 <= j < |s.jobs| ==> JobSettled(s.jobs[j], r.jobs[j], true))
      && r.guests == s.guests && r.doomed == s.doomed && r.started == s.started
  {
    RestartedRows(s, order);
    RowsMarked(s.vms, s.jobs);
    JobsSettled(s.jobs);
  }

  lemma NothingToAdopt(vms: seq<Vm>, jobs: seq<Job>, n: nat)
    requires n <= |jobs|
    requires forall j :: 0 <= j < |jobs| ==> jobs[j].status != JobRunning
    ensures Adopted(vms, jobs, n) == vms
  {
  }

  /** Marking twice is marking once. */
  lemma MarkTwice(vms: seq<Vm>, jobs: seq<Job>, jobs': seq<Job>)
    requires |jobs'| == |jobs|
    requires forall j :: 0 <= j < |jobs'| ==> jobs'[j].status != JobRunning
    ensures MarkedJobs(jobs') == jobs'
    ensures MarkedVms(MarkedVms(vms, jobs), jobs') == MarkedVms(vms, jobs)
  {
    NothingToAdopt(MarkedVms(vms, jobs), jobs', |jobs'|);
  }

  /** A recovery cut short by a crash, at either of its first two commits, and then started
      again marks the same rows. */
  lemma MarkIsRestartable(s: State, order: seq<JobRow>)
    requires IsResumeOrder(MarkedJobs(s.jobs), order)
    ensures var s1 := DoMark(DoCrash(s));
      && DoMark(DoCrash(s1)) == s1
      && DoMark(DoCrash(Apply(s1, Requeue(order)))) == s1
  {
    MarkTwice(s.vms, s.jobs, MarkedJobs(s.jobs));
  }

  lemma SettledTwice(jobs: seq<Job>)
    requires forall j :: 0 <= j < |jobs| ==> jobs[j].status != JobRunning
    ensures var settled := FailListed(jobs, Unresumable(jobs));
      && (forall j :: 0 <= j < |settled| ==> settled[j].status != JobRunning)
      && Unresumable(settled) == {} && FailListed(settled, {}) == settled
      && forall order :: IsResumeOrder(jobs, order) ==> IsResumeOrder(settled, order)
  {
  }

  /** A crash after a complete recovery, and another recovery, change nothing more. */
  lemma RecoveryIsRestartable(s: State, order: seq<JobRow>)
    requires IsResumeOrder(MarkedJobs(s.jobs), order)
    ensures var r := Restarted(s, order);
      && IsResumeOrder(MarkedJobs(r.jobs), order)
      && Restarted(r, order) == r
  {
    var jobs := MarkedJobs(s.jobs);
    var r := Restarted(s, order);
    SettledTwice(jobs);
    MarkTwice(s.vms, s.jobs, r.jobs);
    assert MarkedJobs(r.jobs) == r.jobs && MarkedVms(r.vms, r.jobs) == r.vms;
  }
}
