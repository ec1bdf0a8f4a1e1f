/** The other half of conservation: a job that destroys guests on behalf of a deleted row
    breaks the correspondence, whatever else happens meanwhile. */
module PanelHarm {
  import opened Wrappers
  import opened Entities
  import opened Panel
  import opened PanelFrames
  import opened PanelTickets
  import opened PanelLocal
  import opened PanelRows
  import opened PanelGuests
  import opened PanelInvariant
  import opened PanelConservation

  /** Calm, and no call of the job fails. */
  predicate Smooth(s: State, step: Step) {
    && Calm(s, step)
    && (step.Work? && CanWork(s, step.answer) && !EdgePlace(s.worker.at) ==>
          !DoBody(LocalOf(s), step.answer).at.Failing?)
  }

  predicate OwnsGuest(l: Local, g: Vmid) {
    g in l.guests && l.guests[g] == l.v
  }

  /** A harmful job under way: it runs on a deleted row, and either clones a guest for that
      row or destroys the guest that now belongs to another. */
  ghost predicate Harming(l: Local) {
    && l.vm.deleted
    && l.doomed <= l.guests.Keys
    && (if l.at.AwaitDestroy? then forall g :: g in l.doomed ==> l.vm.vmid == Some(g) else l.doomed == {})
    && !l.at.Failing?
    && match l.job.kind
       case ReinstallVm =>
         && (l.at.Cloned? || l.at.AwaitClone? || SetupPlace(l.at) ==> OwnsGuest(l, l.at.guest))
         && (l.at.Finish? || l.at.Spawn? || l.at.PutSpawned? ==> l.vm.vmid.Some? && OwnsGuest(l, l.vm.vmid.value))
       case DeleteVm =>
         && l.vm.vmid.Some?
         && (l.at.Begin? || l.at.Resolve? || l.at.StopGuest? || l.at.Destroy? ==> l.vm.vmid.value in l.guests)
         && (l.at.Destroyed? || l.at.Finish? ==> l.vm.vmid.value !in l.guests)
       case _ => false
  }

  /** A live row records the same VMID as the worker's row. */
  ghost predicate Claimed(vms: seq<Vm>, vmid: Option<Vmid>) {
    exists u :: 0 <= u < |vms| && !vms[u].deleted && vms[u].vmid == vmid
  }

  ghost predicate Ruined(s: State)
    requires WorkerOk(s)
  {
    if s.worker.Idle? then !Exact(s)
    else
      && Harming(LocalOf(s))
      && (LocalOf(s).job.kind == DeleteVm ==> Claimed(s.vms, LocalOf(s).vm.vmid))
  }

  lemma DestroyKeepsHarming(l: Local, a: Answer)
    requires KindOk(l) && GuestOk(l) && Harming(l) && (l.at.Begin? || DestroyPlace(l.at)) && CanAnswer(l, a)
    requires l.at.AwaitDestroy? ==> a.Ok?
    requires !DoBody(l, a).at.Failing?
    ensures Harming(DoBody(l, a))
    ensures l.job.kind == DeleteVm ==> DoBody(l, a).vm.vmid == l.vm.vmid
  {
  }

  lemma CloneKeepsHarming(l: Local, a: Answer)
    requires KindOk(l) && GuestOk(l) && Harming(l) && (ClonePlace(l.at) || SetupPlace(l.at)) && CanAnswer(l, a)
    requires !a.LostGuest? && !DoBody(l, a).at.Failing?
    ensures Harming(DoBody(l, a))
  {
    if SetupPlace(l.at) { SetupKeepsVmid(l, a); }
  }

  /** A write to a deleted row takes no claim away. */
  lemma StillClaimed(vms: seq<Vm>, vms': seq<Vm>, vmid: Option<Vmid>)
    requires Claimed(vms, vmid) && |vms| <= |vms'|
    requires forall u :: 0 <= u < |vms| && !vms[u].deleted ==>
      !vms'[u].deleted && vms'[u].vmid == vms[u].vmid
    ensures Claimed(vms', vmid)
  {
    var u :| 0 <= u < |vms| && !vms[u].deleted && vms[u].vmid == vmid;
    assert !vms'[u].deleted && vms'[u].vmid == vmid;
  }

  lemma BodyKeepsRuined(s: State, a: Answer)
    requires Rows(s) && CanWork(s, a) && s.worker.Busy? && Ruined(s) && !EdgePlace(s.worker.at) && Smooth(s, Work(a))
    ensures Ruined(DoWork(s, a))
  {
    var l := LocalOf(s);
    var s' := DoWork(s, a);
    BodyFrame(l, a);
    if l.at.Begin? || DestroyPlace(l.at) {
      DestroyKeepsHarming(l, a);
    } else {
      CloneKeepsHarming(l, a);
    }
    assert LocalOf(s') == DoBody(l, a);
    if l.job.kind == DeleteVm { StillClaimed(s.vms, s'.vms, l.vm.vmid); }
  }

  lemma EdgeKeepsRuined(s: State)
    requires Rows(s) && s.worker.Busy? && EdgePlace(s.worker.at) && !s.worker.at.Loaded? && Ruined(s)
    ensures WorkerOk(DoEdge(s)) && Ruined(DoEdge(s))
  {
    var l := LocalOf(s);
    var s' := DoEdge(s);
    if l.job.kind == DeleteVm {
      var u :| 0 <= u < |s.vms| && !s.vms[u].deleted && s.vms[u].vmid == l.vm.vmid;
      assert !s'.vms[u].deleted && s'.vms[u].vmid == l.vm.vmid;
    } else if l.at.PutSpawned? {
      assert s'.guests[l.vm.vmid.value] == l.v && s'.vms[l.v].deleted;
    }
  }

  lemma QuietKeepsRuined(s: State, s': State)
    requires WorkerOk(s) && WorkerOk(s') && s.worker.Busy? && Ruined(s)
    requires s'.worker == s.worker && s'.guests == s.guests && s'.doomed == s.doomed
    requires |s.vms| <= |s'.vms| && |s.jobs| <= |s'.jobs|
    requires forall v :: 0 <= v < |s.vms| ==>
      s'.vms[v].vmid == s.vms[v].vmid && s'.vms[v].deleted == s.vms[v].deleted
    requires var j := s.worker.job; s'.jobs[j].vm == s.jobs[j].vm && s'.jobs[j].kind == s.jobs[j].kind
    ensures Ruined(s')
  {
    if LocalOf(s).job.kind == DeleteVm { StillClaimed(s.vms, s'.vms, LocalOf(s).vm.vmid); }
  }

  lemma AdvanceKeepsRuined(s: State, i: nat)
    requires WorkerOk(s) && HandlerRefs(|s.vms|, s.handlers) && s.worker.Busy? && Ruined(s) && CanAdvance(s, i)
    ensures WorkerOk(AdvanceHandler(s, i)) && Ruined(AdvanceHandler(s, i))
  {
    QuietKeepsRuined(s, AdvanceHandler(s, i));
  }

  lemma RestKeepsRuined(s: State, step: Step)
    requires WorkerOk(s) && s.worker.Busy? && Ruined(s) && Enabled(s, step) && Calm(s, step)
    requires !step.Work? && !step.Advance? && !step.Take? && !step.Vanish?
    ensures WorkerOk(Apply(s, step)) && Ruined(Apply(s, step))
  {
    QuietKeepsRuined(s, Apply(s, step));
  }

  lemma VanishKeepsRuined(s: State, g: Vmid)
    requires Rows(s) && s.worker.Busy? && Ruined(s) && g in s.guests && g in s.doomed
    ensures WorkerOk(Apply(s, Vanish(g))) && Ruined(Apply(s, Vanish(g)))
  {
  }

  lemma StepKeepsRuined(s: State, step: Step)
    requires Inv(s) && Enabled(s, step) && s.worker.Busy? && !s.worker.at.Loaded? && Ruined(s) && Smooth(s, step)
    ensures WorkerOk(Apply(s, step)) && Ruined(Apply(s, step))
  {
    if step.Work? {
      if EdgePlace(s.worker.at) { EdgeKeepsRuined(s); } else { BodyKeepsRuined(s, step.answer); }
    } else if step.Advance? {
      AdvanceKeepsRuined(s, step.handler);
    } else if step.Vanish? {
      VanishKeepsRuined(s, step.guest);
    } else {
      RestKeepsRuined(s, step);
    }
  }

  /** From the correspondence, starting a harmful job puts it on the way to breaking it. */
  lemma StartRuins(s: State)
    requires Tickets(s) && Rows(s) && s.worker.Busy? && s.worker.at.Loaded?
    requires Conserving(s) && !Harmless(LocalOf(s))
    ensures WorkerOk(DoEdge(s)) && Ruined(DoEdge(s))
  {
    var l := LocalOf(s);
    assert LocalOf(DoEdge(s)) == l.(job := l.job.(status := JobRunning), at := Begin);
    if l.job.kind == DeleteVm {
      var u := s.guests[l.vm.vmid.value];
      assert !DoEdge(s).vms[u].deleted && DoEdge(s).vms[u].vmid == l.vm.vmid;
    }
  }

  /** The run of one job: from its start to the moment the worker is idle again, with any
      number of steps of handlers and of Proxmox in between. */
  ghost predicate JobRun(run: seq<State>, steps: seq<Step>) {
    && |run| == |steps| + 1 && |steps| > 0
    && Follows(run, steps)
    && run[0].worker.Busy? && run[0].worker.at.Loaded? && steps[0] == Work(Ok)
    && (forall i :: 0 < i < |steps| ==> run[i].worker.Busy? && !run[i].worker.at.Loaded?)
    && run[|steps|].worker.Idle?
  }

  lemma {:induction false} JobStaysRuined(run: seq<State>, steps: seq<Step>, n: nat)
    requires JobRun(run, steps) && Inv(run[0]) && Conserving(run[0]) && !Harmless(LocalOf(run[0]))
    requires forall i :: 0 <= i < |steps| ==> Smooth(run[i], steps[i])
    requires 0 < n <= |steps|
    ensures WorkerOk(run[n]) && Ruined(run[n])
  {
    if n == 1 {
      StartRuins(run[0]);
    } else {
      JobStaysRuined(run, steps, n - 1);
      FollowsKeepsInv(run, steps, n - 1);
      StepKeepsRuined(run[n - 1], steps[n - 1]);
    }
  }

  lemma {:induction false} JobStaysConserving(run: seq<State>, steps: seq<Step>, n: nat)
    requires JobRun(run, steps) && Inv(run[0]) && Conserving(run[0]) && Harmless(LocalOf(run[0]))
    requires forall i :: 0 <= i < |steps| ==> Calm(run[i], steps[i])
    requires n <= |steps|
    ensures WorkerOk(run[n]) && Conserving(run[n])
  {
    if n > 0 {
      JobStaysConserving(run, steps, n - 1);
      FollowsKeepsInv(run, steps, n - 1);
      StepConserves(run[n - 1], steps[n - 1]);
    }
  }

  /** One job that meets no failure leaves guests and live rows in correspondence if and
      only if it was harmless when it started. */
  lemma JobConservesIff(run: seq<State>, steps: seq<Step>)
    requires JobRun(run, steps) && Reachable(run[0])
    requires WorkerOk(run[0]) && Conserving(run[0])
    requires forall i :: 0 <= i < |steps| ==> Smooth(run[i], steps[i])
    ensures Exact(run[|steps|]) <==> Harmless(LocalOf(run[0]))
  {
    ReachableInv(run[0]);
    if Harmless(LocalOf(run[0])) {
      JobStaysConserving(run, steps, |steps|);
    } else {
      JobStaysRuined(run, steps, |steps|);
    }
  }
}
