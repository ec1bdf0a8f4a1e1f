/** The lifecycle engine's guarantees over whole runs: any interleaving of handlers, worker
    steps, Proxmox failures, crashes and restarts from the first deployment on. */
module PanelTheorems {
  import opened Wrappers
  import opened Entities
  import opened Panel
  import opened PanelFrames
  import opened PanelTickets
  import opened PanelLocal
  import opened PanelRows
  import opened PanelRowsKept
  import opened PanelGuests
  import opened PanelInvariant
  import opened PanelConservation

  // ---------------------------------------------------------------- guests

  /** Guests are never forgotten: a row lets go of its guest only when it is absent. */
  lemma NeverForgotten(run: seq<State>, steps: seq<Step>, i: nat, v: VmRow)
    requires IsRun(run, steps) && i < |steps| && v < |run[i].vms|
    ensures v < |run[i + 1].vms|
    ensures LetsGo(run[i].vms[v], run[i + 1].vms[v]) ==>
      run[i].vms[v].vmid.value !in run[i].guests && run[i].vms[v].vmid.value !in run[i + 1].guests
  {
    RunInv(run, steps);
    LetsGoOnlyWhenAbsent(run[i], steps[i], v);
  }

  ghost predicate LostSince(run: seq<State>, steps: seq<Step>, i: nat, n: nat, g: Vmid)
    requires IsRun(run, steps) && i < n <= |steps|
  {
    && WorkerOk(run[i]) && LosesGuest(run[i], steps[i], g)
    && forall k :: i < k <= n ==> g in run[k].guests
  }

  ghost predicate EverLost(run: seq<State>, steps: seq<Step>, n: nat, g: Vmid)
    requires IsRun(run, steps) && n <= |steps|
  {
    exists i: nat :: i < n && LostSince(run, steps, i, n, g)
  }

  lemma RunInvAt(run: seq<State>, steps: seq<Step>, n: nat)
    requires IsRun(run, steps) && n <= |steps|
    ensures Inv(run[n])
  {
    InitInv();
    FollowsKeepsInv(run, steps, n);
  }

  lemma LostStep(run: seq<State>, steps: seq<Step>, n: nat, m: nat, g: Vmid)
    requires IsRun(run, steps) && m == n + 1 && m <= |steps|
    requires Tickets(run[n]) && Rows(run[n]) && GuestRefs(run[n]) && GuestRefs(run[m])
    requires Lost(run[n], g) <==> EverLost(run, steps, n, g)
    ensures Lost(run[m], g) <==> EverLost(run, steps, m, g)
  {
    assert Enabled(run[n], steps[n]) && run[n + 1] == Apply(run[n], steps[n]);
    if g in run[m].guests {
      LostExactly(run[n], steps[n], g);
      if Lost(run[n], g) {
        var i: nat :| i < n && LostSince(run, steps, i, n, g);
        assert LostSince(run, steps, i, m, g);
      } else if LosesGuest(run[n], steps[n], g) {
        assert LostSince(run, steps, n, m, g);
      } else if i: nat :| i < m && LostSince(run, steps, i, m, g) {
        assert i < n && LostSince(run, steps, i, n, g);
      }
    }
  }

  lemma LostStepInRun(run: seq<State>, steps: seq<Step>, n: nat, m: nat, g: Vmid)
    requires IsRun(run, steps) && m == n + 1 && m <= |steps|
    requires GuestRefs(run[n]) && (Lost(run[n], g) <==> EverLost(run, steps, n, g))
    ensures GuestRefs(run[m]) && (Lost(run[m], g) <==> EverLost(run, steps, m, g))
  {
    RunInvAt(run, steps, n);
    RunInvAt(run, steps, m);
    LostStep(run, steps, n, m, g);
  }

  /** A guest is lost at some point of a run if and only if one of the three losing steps
      hit it earlier and it has been there ever since. */
  lemma {:induction false} LostIff(run: seq<State>, steps: seq<Step>, n: nat, g: Vmid)
    requires IsRun(run, steps) && n <= |steps|
    ensures GuestRefs(run[n])
    ensures Lost(run[n], g) <==> EverLost(run, steps, n, g)
  {
    if n > 0 {
      LostIff(run, steps, n - 1, g);
      LostStepInRun(run, steps, n - 1, n, g);
    }
  }

  /** A crash at any point after the metadata commit, followed by recovery, leaves the row
      with exactly the clone's VMID, for create and reinstall alike. */
  lemma CloneAdopted(s: State, j: JobRow)
    requires Reachable(s) && j < |s.jobs| && s.jobs[j].status == JobRunning && s.jobs[j].target.Some?
    ensures s.jobs[j].vm < |s.vms|
    ensures s.vms[s.jobs[j].vm].vmid == None || s.vms[s.jobs[j].vm].vmid == s.jobs[j].target
    ensures var s' := DoMark(DoCrash(s));
      s'.vms[s.jobs[j].vm].vmid == s.jobs[j].target && s'.jobs[j].status == JobFailed
  {
    ReachableInv(s);
    AdoptsTarget(s.vms, s.jobs, |s.jobs|, j);
  }

  // ---------------------------------------------------------------- history

  /** A job waits, runs, ends; a waiting job may also be failed at once, as startup does. */
  predicate MayBecome(before: JobStatus, after: JobStatus) {
    match before
    case JobQueued => true
    case JobRunning => after != JobQueued
    case JobSuccess => after == JobSuccess
    case JobFailed => after == JobFailed
  }

  /** What no later state takes back: jobs move forward and keep their type and VM; VM rows
      keep their hostname, stay deleted and never lose disk; started jobs stay started. */
  ghost predicate Later(s: State, s': State) {
    && |s.jobs| <= |s'.jobs| && |s.vms| <= |s'.vms|
    && (forall j :: 0 <= j < |s.jobs| ==>
          && s'.jobs[j].kind == s.jobs[j].kind && s'.jobs[j].vm == s.jobs[j].vm
          && MayBecome(s.jobs[j].status, s'.jobs[j].status))
    && (forall v :: 0 <= v < |s.vms| ==>
          && s'.vms[v].hostname == s.vms[v].hostname
          && (s.vms[v].deleted ==> s'.vms[v].deleted)
          && s.vms[v].diskGb <= s'.vms[v].diskGb)
    && s.started <= s'.started
  }

  lemma WorkIsLater(s: State, a: Answer)
    requires Tickets(s) && CanWork(s, a)
    ensures Later(s, DoWork(s, a))
    ensures forall j :: 0 <= j < |s.jobs| && s.jobs[j].status == JobQueued ==>
      DoWork(s, a).jobs[j].status != JobSuccess
  {
    if !EdgePlace(s.worker.at) { BodyFrame(LocalOf(s), a); }
  }

  lemma AdvanceIsLater(s: State, i: nat)
    requires Tickets(s) && CanAdvance(s, i)
    ensures Later(s, AdvanceHandler(s, i))
    ensures forall j :: 0 <= j < |s.jobs| ==> AdvanceHandler(s, i).jobs[j] == s.jobs[j]
  {
  }

  lemma MarkIsLater(s: State)
    requires Tickets(s)
    ensures Later(s, DoMark(s))
  {
    AdoptedRows(s.vms, s.jobs, |s.jobs|);
  }

  lemma RestIsLater(s: State, step: Step)
    requires Tickets(s) && Enabled(s, step) && !step.Work? && !step.Advance? && !step.MarkOrphans?
    ensures Later(s, Apply(s, step))
    ensures forall j :: 0 <= j < |s.jobs| ==> Apply(s, step).jobs[j].status in {s.jobs[j].status, JobFailed}
  {
  }

  /** One step only moves forward, and no waiting job succeeds without having run. */
  lemma StepIsLater(s: State, step: Step)
    requires Tickets(s) && Enabled(s, step)
    ensures Later(s, Apply(s, step))
    ensures forall j :: 0 <= j < |s.jobs| && s.jobs[j].status == JobQueued ==>
      Apply(s, step).jobs[j].status != JobSuccess
  {
    if step.Work? { WorkIsLater(s, step.answer); }
    else if step.Advance? { AdvanceIsLater(s, step.handler); }
    else if step.MarkOrphans? { MarkIsLater(s); }
    else { RestIsLater(s, step); }
  }

  lemma RunStepIsLater(run: seq<State>, steps: seq<Step>, i: nat)
    requires IsRun(run, steps) && i < |steps|
    ensures Later(run[i], run[i + 1])
  {
    RunInvAt(run, steps, i);
    StepIsLater(run[i], steps[i]);
  }

  lemma LaterIsTransitive(a: State, b: State, c: State)
    requires Later(a, b) && Later(b, c)
    ensures Later(a, c)
  {
  }

  lemma {:induction false} LaterChain(run: seq<State>, i: nat, k: nat)
    requires i <= k < |run|
    requires forall n: nat, m: nat :: m == n + 1 && m < |run| ==> Later(run[n], run[m])
    ensures Later(run[i], run[k])
  {
    if i < k {
      LaterChain(run, i, k - 1);
      LaterIsTransitive(run[i], run[k - 1], run[k]);
    }
  }

  /** Over any stretch of any run, jobs and rows only move forward. */
  lemma History(run: seq<State>, steps: seq<Step>, i: nat, k: nat)
    requires IsRun(run, steps) && i <= k <= |steps|
    ensures Later(run[i], run[k])
  {
    forall n: nat, m: nat | m == n + 1 && m < |run| ensures Later(run[n], run[m]) {
      RunStepIsLater(run, steps, n);
    }
    LaterChain(run, i, k);
  }

  // ---------------------------------------------------------------- jobs

  /** The step with which a job's body starts. */
  predicate Starts(s: State, step: Step, j: JobRow) {
    step.Work? && s.worker.Busy? && s.worker.at.Loaded? && s.worker.job == j
  }

  lemma StartIsRecorded(run: seq<State>, steps: seq<Step>, i: nat, j: JobRow)
    requires IsRun(run, steps) && i < |steps| && Starts(run[i], steps[i], j)
    ensures run[i + 1].started == run[i].started + [j]
  {
    assert Enabled(run[i], steps[i]) && run[i + 1] == Apply(run[i], steps[i]);
  }

  lemma StartedOnce(run: seq<State>, steps: seq<Step>, n: nat, a: nat, b: nat)
    requires IsRun(run, steps) && n <= |steps| && a <= b < |run[n].started|
    requires run[n].started[a] == run[n].started[b]
    ensures a == b
  {
    RunInvAt(run, steps, n);
  }

  /** At most once: over all crashes and restarts, no job's body starts twice. */
  lemma AtMostOnce(run: seq<State>, steps: seq<Step>, i: nat, k: nat, j: JobRow)
    requires IsRun(run, steps) && i <= k < |steps|
    requires Starts(run[i], steps[i], j) && Starts(run[k], steps[k], j)
    ensures i == k
  {
    if i < k {
      StartIsRecorded(run, steps, i, j);
      StartIsRecorded(run, steps, k, j);
      History(run, steps, i + 1, k);
      StartedOnce(run, steps, k + 1, |run[i].started|, |run[k].started|);
    }
  }

  /** No two jobs are ever running, and while the process is up the running one is the
      worker's. */
  lemma OneRunning(s: State, j: JobRow, k: JobRow)
    requires Reachable(s) && j < |s.jobs| && k < |s.jobs|
    requires s.jobs[j].status == JobRunning && s.jobs[k].status == JobRunning
    ensures j == k
    ensures !s.phase.Down? ==> s.worker.Busy? && s.worker.job == j
  {
    ReachableInv(s);
  }

  // ---------------------------------------------------------------- VM rows

  /** No two live VMs share a hostname, ignoring case. */
  lemma LiveHostnamesUnique(s: State, u: VmRow, v: VmRow)
    requires Reachable(s) && u < |s.vms| && v < |s.vms| && u != v
    requires !s.vms[u].deleted && !s.vms[v].deleted
    ensures !SameIgnoringCase(s.vms[u].hostname, s.vms[v].hostname)
  {
    ReachableInv(s);
    LowerIgnoresCase(s.vms[u].hostname, s.vms[v].hostname);
  }

  /** Hostnames are recorded without capitals. */
  lemma HostnamesAreLower(s: State, v: VmRow)
    requires Reachable(s) && v < |s.vms|
    ensures NoCapitals(s.vms[v].hostname)
  {
    ReachableInv(s);
    LowerIsLower(s.vms[v].hostname);
  }

  /** An SSH-ready VM has its address on record, in every committed state. */
  lemma SshReadyHasAddress(s: State, v: VmRow)
    requires Reachable(s) && v < |s.vms| && s.vms[v].ssh == SshReady
    ensures s.vms[v].ip.Some?
  {
    ReachableInv(s);
  }

  /** The create job of v has not been started, and something is bound to start it. */
  ghost predicate CreateUnderWay(s: State, v: VmRow) {
    exists j: JobRow :: j < |s.jobs| && Waiting(s.jobs[j]) && s.jobs[j].vm == v
      && (j in s.queue || WorkerTicket(s.worker) == Some(j)
          || exists i :: 0 <= i < |s.handlers| && HandlerTicket(s.handlers[i]) == Some(j))
  }

  /** No stuck VM: while serving, a live VM in an interrupted status is the running job's,
      or it is being created and its create job is still on its way. */
  lemma NoStuckVm(s: State, v: VmRow)
    requires Reachable(s) && s.phase == Serving && v < |s.vms|
    requires !s.vms[v].deleted && Transient(s.vms[v].status)
    ensures
      || (s.worker.Busy? && s.worker.job < |s.jobs| && s.jobs[s.worker.job].status == JobRunning
          && s.jobs[s.worker.job].vm == v)
      || (s.vms[v].status == Creating && CreateUnderWay(s, v))
  {
    ReachableInv(s);
    if CreateWaits(s.jobs, v) {
      var j: nat :| j < |s.jobs| && Waiting(s.jobs[j]) && s.jobs[j].vm == v;
      assert IsQueued(s.jobs, j);
      assert HasTicket(s.queue, s.worker, s.handlers, s.phase, j);
    }
  }

  /** Whichever way dispatch ends a job, its VM is not left in an interrupted status. */
  lemma DispatchLeavesSteady(s: State, a: Answer)
    requires Reachable(s) && CanWork(s, a) && InBody(s.worker.at)
    requires var w := DoWork(s, a).worker; w.Busy? ==> !InBody(w.at)
    ensures var j := s.worker.job;
      && DoWork(s, a).jobs[j].status in {JobSuccess, JobFailed}
      && Steady(DoWork(s, a).vms[s.jobs[j].vm])
  {
    ReachableInv(s);
    if !EdgePlace(s.worker.at) { BodyFrame(LocalOf(s), a); }
  }

  // ---------------------------------------------------------------- conservation

  /** A run without crashes and lost tasks in which every job that starts is harmless keeps
      guests and live rows in correspondence whenever the worker is idle. */
  lemma {:induction false} CalmRunConserves(run: seq<State>, steps: seq<Step>, n: nat)
    requires |run| == |steps| + 1 && Follows(run, steps) && Reachable(run[0]) && n <= |steps|
    requires run[0].worker.Idle? && Exact(run[0]) && run[0].doomed == {}
    requires forall i :: 0 <= i < n ==> Calm(run[i], steps[i])
    requires forall i :: 0 <= i < n && steps[i].Work? && WorkerOk(run[i]) && run[i].worker.Busy? && run[i].worker.at.Loaded? ==>
      Harmless(LocalOf(run[i]))
    ensures Inv(run[n]) && Conserving(run[n])
    ensures run[n].worker.Idle? ==> Exact(run[n])
  {
    ReachableInv(run[0]);
    FollowsKeepsInv(run, steps, n);
    if n > 0 {
      CalmRunConserves(run, steps, n - 1);
      assert Enabled(run[n - 1], steps[n - 1]) && run[n - 1 + 1] == Apply(run[n - 1], steps[n - 1]);
      StepConserves(run[n - 1], steps[n - 1]);
    }
  }
}
