/** Which guests the panel keeps track of, and exactly when it loses one. */
module PanelGuests {
  import opened Wrappers
  import opened Entities
  import opened Panel
  import opened PanelFrames
  import opened PanelTickets
  import opened PanelLocal
  import opened PanelRows
  import opened PanelRowsKept

  /** The row's guest is let go: its VMID is replaced or cleared, or the row is deleted. */
  predicate LetsGo(before: Vm, after: Vm) {
    before.vmid.Some? && (after.vmid != before.vmid || (after.deleted && !before.deleted))
  }

  lemma SetupKeepsVmid(l: Local, a: Answer)
    requires SetupPlace(l.at) && CanAnswer(l, a)
    ensures var l' := DoSetup(l, a);
      && l'.vm.vmid == l.vm.vmid && l'.vm.deleted == l.vm.deleted
      && l'.job == l.job && l'.guests == l.guests
  {
  }

  lemma BodyLetsGo(l: Local, a: Answer)
    requires LocalOk(l) && !EdgePlace(l.at) && CanAnswer(l, a)
    ensures LetsGo(l.vm, DoBody(l, a).vm) ==> l.vm.vmid.value !in l.guests && DoBody(l, a).guests == l.guests
  {
    if SetupPlace(l.at) { SetupKeepsVmid(l, a); }
  }

  lemma WorkLetsGo(s: State, a: Answer, v: VmRow)
    requires Rows(s) && CanWork(s, a) && v < |s.vms|
    ensures v < |DoWork(s, a).vms|
    ensures LetsGo(s.vms[v], DoWork(s, a).vms[v]) ==>
      s.vms[v].vmid.value !in s.guests && DoWork(s, a).guests == s.guests
  {
    if !EdgePlace(s.worker.at) {
      BodyFrame(LocalOf(s), a);
      BodyLetsGo(LocalOf(s), a);
    }
  }

  lemma OthersLetNothingGo(s: State, step: Step, v: VmRow)
    requires Enabled(s, step) && !step.Work? && v < |s.vms|
    ensures v < |Apply(s, step).vms| && !LetsGo(s.vms[v], Apply(s, step).vms[v])
  {
    if step.MarkOrphans? { AdoptedRows(s.vms, s.jobs, |s.jobs|); }
  }

  /** Whatever step is taken, a row lets go of its guest only when that guest is absent. */
  lemma LetsGoOnlyWhenAbsent(s: State, step: Step, v: VmRow)
    requires Rows(s) && Enabled(s, step) && v < |s.vms|
    ensures v < |Apply(s, step).vms|
    ensures LetsGo(s.vms[v], Apply(s, step).vms[v]) ==>
      s.vms[v].vmid.value !in s.guests && s.vms[v].vmid.value !in Apply(s, step).guests
  {
    if step.Work? { WorkLetsGo(s, step.answer, v); } else { OthersLetNothingGo(s, step, v); }
  }

  /** A running job holds the guest in its metadata, for the row it was cloned for. */
  ghost predicate HeldByJob(jobs: seq<Job>, v: VmRow, g: Vmid) {
    exists j :: 0 <= j < |jobs| && jobs[j].status == JobRunning && jobs[j].vm == v && jobs[j].target == Some(g)
  }

  /** The clone was accepted for this row and is about to be written to the metadata. */
  predicate HeldByWorker(jobs: seq<Job>, w: Worker, v: VmRow, g: Vmid) {
    w.Busy? && w.at == Cloned(g) && w.job < |jobs| && jobs[w.job].vm == v
  }

  /** Every guest was cloned for a row that exists. */
  ghost predicate GuestRefs(s: State) {
    forall g :: g in s.guests ==> s.guests[g] < |s.vms|
  }

  /** A lost guest: it exists, but neither the row it was cloned for nor a running job
      knows it. */
  ghost predicate Lost(s: State, g: Vmid)
    requires GuestRefs(s)
  {
    && g in s.guests
    && var v := s.guests[g];
       s.vms[v].vmid != Some(g) && !HeldByJob(s.jobs, v, g) && !HeldByWorker(s.jobs, s.worker, v, g)
  }

  /** The three ways to lose a guest: a crash between the clone and the commit of its VMID
      to the job's metadata, a clone call that failed for the panel although Proxmox
      accepted it, and a job failed before its clone was recorded by the row. */
  predicate LosesGuest(s: State, step: Step, g: Vmid)
    requires WorkerOk(s)
  {
    s.worker.Busy? &&
    match step
    case Crash => g in s.guests && HeldByWorker(s.jobs, s.worker, s.guests[g], g)
    case Work(a) =>
      var l := LocalOf(s);
      || a == LostGuest(g)
      || (l.at.Failing? && g in s.guests && s.guests[g] == l.v && l.job.target == Some(g) && l.vm.vmid != Some(g))
    case _ => false
  }

  lemma StepKeepsGuestRefs(s: State, step: Step)
    requires WorkerOk(s) && GuestRefs(s) && Enabled(s, step)
    ensures GuestRefs(Apply(s, step))
  {
    if step.Work? && SetupPlace(s.worker.at) { SetupKeepsVmid(LocalOf(s), step.answer); }
  }

  /** The running job that holds a guest is the worker's. */
  lemma HolderIsWorker(s: State, v: VmRow, g: Vmid)
    requires Tickets(s) && !s.phase.Down?
    ensures HeldByJob(s.jobs, v, g) <==>
      s.worker.Busy? && InBody(s.worker.at) && s.jobs[s.worker.job].vm == v && s.jobs[s.worker.job].target == Some(g)
  {
  }

  lemma BodyTracks(l: Local, a: Answer, g: Vmid)
    requires LocalOk(l) && !EdgePlace(l.at) && CanAnswer(l, a)
    ensures var l' := DoBody(l, a);
      && (g in l.guests ==> g in l'.guests && l'.guests[g] == l.guests[g])
      && (g in l'.guests && g !in l.guests ==>
            l'.guests[g] == l.v && l'.vm.vmid != Some(g) && l'.job.target != Some(g)
            && (l'.at == Cloned(g) <==> a != LostGuest(g)))
      && (g in l.guests ==>
            ((l'.vm.vmid == Some(g) || l'.job.target == Some(g) || l'.at == Cloned(g)) <==>
             (l.vm.vmid == Some(g) || l.job.target == Some(g) || l.at == Cloned(g))))
  {
    if SetupPlace(l.at) { SetupKeepsVmid(l, a); }
  }

  lemma BodyLoses(s: State, a: Answer, g: Vmid)
    requires Tickets(s) && Rows(s) && GuestRefs(s) && CanWork(s, a) && !EdgePlace(s.worker.at)
    requires g in DoWork(s, a).guests && GuestRefs(DoWork(s, a))
    ensures Lost(DoWork(s, a), g) <==> Lost(s, g) || LosesGuest(s, Work(a), g)
  {
    var s' := DoWork(s, a);
    var v := s'.guests[g];
    BodyFrame(LocalOf(s), a);
    BodyTracks(LocalOf(s), a, g);
    BodyKeepsTickets(s, a);
    HolderIsWorker(s, v, g);
    HolderIsWorker(s', v, g);
  }

  lemma EdgeLoses(s: State, a: Answer, g: Vmid)
    requires Tickets(s) && Rows(s) && GuestRefs(s) && CanWork(s, a) && EdgePlace(s.worker.at) && g in s.guests
    ensures Lost(DoEdge(s), g) <==> Lost(s, g) || LosesGuest(s, Work(a), g)
  {
    var v := s.guests[g];
    WorkKeepsTickets(s, a);
    HolderIsWorker(s, v, g);
    HolderIsWorker(DoEdge(s), v, g);
  }

  /** The recovery hands the one running job's clone to its row. */
  lemma AdoptsTarget(vms: seq<Vm>, jobs: seq<Job>, n: nat, j: JobRow)
    requires n <= |jobs| && j < n && jobs[j].vm < |vms|
    requires jobs[j].status == JobRunning && jobs[j].target.Some?
    requires vms[jobs[j].vm].vmid == None || vms[jobs[j].vm].vmid == jobs[j].target
    requires forall k :: 0 <= k < |jobs| && jobs[k].status == JobRunning ==> k == j
    ensures Adopted(vms, jobs, n)[jobs[j].vm].vmid == jobs[j].target
  {
    if n > j + 1 {
      AdoptsTarget(vms, jobs, n - 1, j);
    } else {
      AdoptedRows(vms, jobs, j);
    }
  }

  lemma MarkLosesNothing(s: State, g: Vmid)
    requires Tickets(s) && Rows(s) && GuestRefs(s) && s.phase.Down? && g in s.guests
    ensures Lost(DoMark(s), g) <==> Lost(s, g)
  {
    var v := s.guests[g];
    AdoptedRows(s.vms, s.jobs, |s.jobs|);
    if HeldByJob(s.jobs, v, g) {
      var j :| 0 <= j < |s.jobs| && s.jobs[j].status == JobRunning && s.jobs[j].vm == v && s.jobs[j].target == Some(g);
      AdoptsTarget(s.vms, s.jobs, |s.jobs|, j);
    }
  }

  /** Steps that write no recorded VMID and no running job. */
  lemma QuietLosesNothing(s: State, s': State, g: Vmid)
    requires GuestRefs(s) && GuestRefs(s') && g in s.guests && g in s'.guests && s'.guests[g] == s.guests[g]
    requires |s.vms| <= |s'.vms| && |s.jobs| <= |s'.jobs|
    requires forall v :: 0 <= v < |s.vms| ==> s'.vms[v].vmid == s.vms[v].vmid
    requires forall j :: 0 <= j < |s'.jobs| && s'.jobs[j].status == JobRunning ==> j < |s.jobs| && s'.jobs[j] == s.jobs[j]
    requires forall j :: 0 <= j < |s.jobs| && s.jobs[j].status == JobRunning ==> s'.jobs[j] == s.jobs[j]
    requires HeldByWorker(s.jobs, s.worker, s.guests[g], g) == HeldByWorker(s'.jobs, s'.worker, s.guests[g], g)
    ensures Lost(s', g) <==> Lost(s, g)
  {
    var v := s.guests[g];
    if HeldByJob(s.jobs, v, g) {
      var j :| 0 <= j < |s.jobs| && s.jobs[j].status == JobRunning && s.jobs[j].vm == v && s.jobs[j].target == Some(g);
      assert s'.jobs[j].target == Some(g);
    }
  }

  lemma AdvanceLosesNothing(s: State, i: nat, g: Vmid)
    requires Tickets(s) && GuestRefs(s) && CanAdvance(s, i) && g in s.guests && GuestRefs(AdvanceHandler(s, i))
    ensures Lost(AdvanceHandler(s, i), g) <==> Lost(s, g)
  {
    QuietLosesNothing(s, AdvanceHandler(s, i), g);
  }

  lemma RestLosesNothing(s: State, step: Step, g: Vmid)
    requires Tickets(s) && GuestRefs(s) && Enabled(s, step) && g in Apply(s, step).guests
    requires !step.Work? && !step.MarkOrphans? && !step.Crash? && GuestRefs(Apply(s, step))
    ensures Lost(Apply(s, step), g) <==> Lost(s, g)
  {
    if step.Advance? { AdvanceLosesNothing(s, step.handler, g); } else { QuietLosesNothing(s, Apply(s, step), g); }
  }

  lemma CrashLoses(s: State, g: Vmid)
    requires Tickets(s) && Rows(s) && GuestRefs(s) && g in s.guests
    ensures Lost(DoCrash(s), g) <==> Lost(s, g) || LosesGuest(s, Crash, g)
  {
    if HeldByWorker(s.jobs, s.worker, s.guests[g], g) { HolderIsWorker(s, s.guests[g], g); }
  }

  /** A guest is lost after a step if and only if it was lost before or the step is one of
      the three that lose it. */
  lemma LostExactly(s: State, step: Step, g: Vmid)
    requires Tickets(s) && Rows(s) && GuestRefs(s) && Enabled(s, step) && g in Apply(s, step).guests
    ensures GuestRefs(Apply(s, step))
    ensures Lost(Apply(s, step), g) <==> Lost(s, g) || LosesGuest(s, step, g)
  {
    StepKeepsGuestRefs(s, step);
    if step.Work? {
      if EdgePlace(s.worker.at) { EdgeLoses(s, step.answer, g); } else { BodyLoses(s, step.answer, g); }
    } else if step.MarkOrphans? {
      MarkLosesNothing(s, g);
    } else if step.Crash? {
      CrashLoses(s, g);
    } else {
      RestLosesNothing(s, step, g);
    }
  }
}
