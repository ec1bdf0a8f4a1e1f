/** Conservation: without crashes and without lost clone or delete tasks, the guests are
    exactly the VMIDs of the live rows, job by job, if and only if no job that destroys
    guests runs on a deleted row whose VMID can still do harm. */
module PanelConservation {
  import opened Wrappers
  import opened Entities
  import opened Panel
  import opened PanelFrames
  import opened PanelTickets
  import opened PanelLocal
  import opened PanelRows
  import opened PanelGuests
  import opened PanelInvariant

  /** The live rows and the guests are in one-to-one correspondence. */
  ghost predicate Exact(s: State) {
    && (forall v :: 0 <= v < |s.vms| && !s.vms[v].deleted && s.vms[v].vmid.Some? ==>
          s.vms[v].vmid.value in s.guests && s.guests[s.vms[v].vmid.value] == v)
    && (forall g :: g in s.guests ==>
          s.guests[g] < |s.vms| && !s.vms[s.guests[g]].deleted && s.vms[s.guests[g]].vmid == Some(g))
  }

  lemma ExactMeansDistinct(s: State)
    requires Exact(s)
    ensures forall u, v :: 0 <= u < v < |s.vms| && !s.vms[u].deleted && !s.vms[v].deleted ==>
      s.vms[u].vmid.Some? ==> s.vms[u].vmid != s.vms[v].vmid
    ensures s.guests.Keys ==
      set v | 0 <= v < |s.vms| && !s.vms[v].deleted && s.vms[v].vmid.Some? :: s.vms[v].vmid.value
  {
    forall g | g in s.guests.Keys
      ensures g in set v | 0 <= v < |s.vms| && !s.vms[v].deleted && s.vms[v].vmid.Some? :: s.vms[v].vmid.value
    {
      assert s.vms[s.guests[g]].vmid == Some(g);
    }
  }

  /** What a caller can look up before a job starts: it destroys no guest, or its row is
      live, or it only deletes and the row's VMID names no guest any more. */
  predicate Harmless(l: Local) {
    match l.job.kind
    case ReinstallVm => !l.vm.deleted
    case DeleteVm => !l.vm.deleted || l.vm.vmid == None || l.vm.vmid.value !in l.guests
    case _ => true
  }

  /** No crash, no clone or delete task whose end the panel missed, and guests vanish only
      because their DELETE was accepted. */
  predicate Calm(s: State, step: Step) {
    match step
    case Crash => false
    case MarkOrphans => false
    case Vanish(g) => g in s.doomed
    case Work(a) =>
      s.worker.Busy? && !a.LostGuest? && (s.worker.at.AwaitClone? || s.worker.at.AwaitDestroy? ==> a.Ok?)
    case _ => true
  }

  // ---------------------------------------------------------------- harmless jobs conserve

  /** The correspondence for every row but v. */
  ghost predicate OthersExact(vms: seq<Vm>, guests: map<Vmid, VmRow>, v: VmRow) {
    && (forall u :: 0 <= u < |vms| && u != v && !vms[u].deleted && vms[u].vmid.Some? ==>
          vms[u].vmid.value in guests && guests[vms[u].vmid.value] == u)
    && (forall g :: g in guests && guests[g] != v ==>
          guests[g] < |vms| && !vms[guests[g]].deleted && vms[guests[g]].vmid == Some(g))
  }

  /** The correspondence for row v. */
  ghost predicate RowExact(guests: map<Vmid, VmRow>, v: VmRow, deleted: bool, vmid: Option<Vmid>) {
    && (!deleted && vmid.Some? ==> vmid.value in guests && guests[vmid.value] == v)
    && (forall g :: g in guests && guests[g] == v ==> !deleted && vmid == Some(g))
  }

  /** The guests cloned for row v, if any, are just g. */
  ghost predicate AtMost(guests: map<Vmid, VmRow>, v: VmRow, g: Option<Vmid>) {
    && (forall h :: h in guests && guests[h] == v ==> g == Some(h))
    && (g.Some? && g.value in guests ==> guests[g.value] == v)
  }

  /** The places at which only a live row is worked on. */
  predicate NeedsLive(l: Local) {
    || ClonePlace(l.at) || SetupPlace(l.at) || l.at.AwaitDestroy?
    || (l.at.Begin? && l.job.kind == CreateVm)
  }

  /** How the worker's row and its guest agree at each place. */
  ghost predicate OwnOk(l: Local) {
    && (l.at.Begin? || (DestroyPlace(l.at) && !l.at.Destroyed?) ==> Harmless(l))
    && (l.at.Destroyed? && l.job.kind == ReinstallVm ==> !l.vm.deleted)
    && (NeedsLive(l) ==> !l.vm.deleted)
    && l.doomed <= l.guests.Keys
    && match l.at
       case AwaitDestroy => AtMost(l.guests, l.v, l.vm.vmid) && (forall g :: g in l.doomed ==> l.vm.vmid == Some(g))
       case Destroyed => AtMost(l.guests, l.v, None) && l.doomed == {}
       case Cloned(g) => AtMost(l.guests, l.v, Some(g)) && g in l.guests && l.doomed == {}
       case AwaitClone(g) => AtMost(l.guests, l.v, Some(g)) && g in l.guests && l.doomed == {}
       case _ => RowExact(l.guests, l.v, l.vm.deleted, l.vm.vmid) && l.doomed == {}
  }

  ghost predicate Conserving(s: State)
    requires WorkerOk(s)
  {
    if s.worker.Idle? then Exact(s) && s.doomed == {}
    else OthersExact(s.vms, s.guests, LocalOf(s).v) && OwnOk(LocalOf(s))
  }

  /** Only guests of the worker's own row come up. */
  ghost predicate OnlyOwnGuests(l: Local, l': Local) {
    && (forall g :: g in l.guests ==> g in l'.guests && l'.guests[g] == l.guests[g])
    && (forall g :: g in l'.guests && g !in l.guests ==> l'.guests[g] == l.v)
  }

  lemma BeginKeepsOwn(l: Local, a: Answer)
    requires KindOk(l) && GuestOk(l) && OwnOk(l) && l.at.Begin? && CanAnswer(l, a)
    ensures OwnOk(DoBegin(l, a)) && OnlyOwnGuests(l, DoBegin(l, a))
  {
  }

  lemma DestroyKeepsOwn(l: Local, a: Answer)
    requires KindOk(l) && GuestOk(l) && OwnOk(l) && DestroyPlace(l.at) && CanAnswer(l, a)
    requires l.at.AwaitDestroy? ==> a.Ok?
    ensures OwnOk(DoDestroy(l, a)) && OnlyOwnGuests(l, DoDestroy(l, a))
  {
  }

  lemma CloneKeepsOwn(l: Local, a: Answer)
    requires KindOk(l) && GuestOk(l) && OwnOk(l) && ClonePlace(l.at) && CanAnswer(l, a)
    requires !a.LostGuest? && (l.at.AwaitClone? ==> a.Ok?)
    ensures OwnOk(DoClone(l, a)) && OnlyOwnGuests(l, DoClone(l, a))
  {
  }

  lemma SetupKeepsOwn(l: Local, a: Answer)
    requires KindOk(l) && GuestOk(l) && OwnOk(l) && SetupPlace(l.at) && CanAnswer(l, a)
    ensures OwnOk(DoSetup(l, a)) && OnlyOwnGuests(l, DoSetup(l, a))
  {
    SetupKeepsVmid(l, a);
  }

  lemma PowerKeepsOwn(l: Local, a: Answer)
    requires KindOk(l) && GuestOk(l) && OwnOk(l) && PowerPlace(l.at) && CanAnswer(l, a)
    ensures OwnOk(DoPower(l, a)) && OnlyOwnGuests(l, DoPower(l, a))
  {
  }

  lemma BodyKeepsOwn(l: Local, a: Answer)
    requires LocalOk(l) && OwnOk(l) && !EdgePlace(l.at) && CanAnswer(l, a)
    requires !a.LostGuest? && (l.at.AwaitClone? || l.at.AwaitDestroy? ==> a.Ok?)
    ensures OwnOk(DoBody(l, a)) && OnlyOwnGuests(l, DoBody(l, a))
  {
    if l.at.Begin? { BeginKeepsOwn(l, a); }
    else if DestroyPlace(l.at) { DestroyKeepsOwn(l, a); }
    else if ClonePlace(l.at) { CloneKeepsOwn(l, a); }
    else if SetupPlace(l.at) { SetupKeepsOwn(l, a); }
    else { PowerKeepsOwn(l, a); }
  }

  lemma BodyConserves(s: State, a: Answer)
    requires Rows(s) && CanWork(s, a) && !EdgePlace(s.worker.at) && Conserving(s) && Calm(s, Work(a))
    ensures WorkerOk(DoWork(s, a)) && Conserving(DoWork(s, a))
  {
    var l := LocalOf(s);
    BodyFrame(l, a);
    BodyKeepsOwn(l, a);
    assert LocalOf(DoWork(s, a)) == DoBody(l, a);
  }

  lemma StartConserves(s: State, a: Answer)
    requires CanWork(s, a) && Fresh(s) && s.worker.at.Loaded? && Conserving(s)
    requires s.jobs[s.worker.job].status == JobQueued && Harmless(LocalOf(s))
    ensures WorkerOk(DoWork(s, a)) && Conserving(DoWork(s, a))
  {
    var l := LocalOf(s);
    assert LocalOf(DoWork(s, a)) == l.(job := l.job.(status := JobRunning), at := Begin);
    assert s.jobs[s.worker.job] == l.job;
  }

  /** At the end of a job its row agrees with its guest again. */
  lemma EndIsExact(s: State)
    requires WorkerOk(s) && s.worker.Busy? && EdgePlace(s.worker.at) && !s.worker.at.Loaded? && Conserving(s)
    ensures Exact(s) && s.doomed == {}
  {
    var l := LocalOf(s);
    assert RowExact(l.guests, l.v, l.vm.deleted, l.vm.vmid);
  }

  lemma ExactKept(s: State, s': State)
    requires WorkerOk(s') && Exact(s) && s.doomed == {}
    requires s'.guests == s.guests && s'.doomed == s.doomed && |s'.vms| == |s.vms|
    requires forall v :: 0 <= v < |s.vms| ==>
      s'.vms[v].vmid == s.vms[v].vmid && s'.vms[v].deleted == s.vms[v].deleted
    requires s'.worker.Busy? ==> s'.worker.at.Spawn? || s'.worker.at.PutSpawned?
    ensures Conserving(s')
  {
  }

  lemma EndConserves(s: State, a: Answer)
    requires CanWork(s, a) && EdgePlace(s.worker.at) && !s.worker.at.Loaded? && Conserving(s)
    ensures WorkerOk(DoWork(s, a)) && Conserving(DoWork(s, a))
  {
    EndIsExact(s);
    EdgeKeepsVmids(s);
    ExactKept(s, DoWork(s, a));
  }

  lemma EdgeKeepsVmids(s: State)
    requires WorkerOk(s) && s.worker.Busy? && EdgePlace(s.worker.at) && !s.worker.at.Loaded?
    ensures var s' := DoEdge(s);
      && WorkerOk(s') && s'.guests == s.guests && s'.doomed == s.doomed && |s'.vms| == |s.vms|
      && (s'.worker.Busy? ==> s'.worker.at.Spawn? || s'.worker.at.PutSpawned?)
      && forall v :: 0 <= v < |s.vms| ==>
           s'.vms[v].vmid == s.vms[v].vmid && s'.vms[v].deleted == s.vms[v].deleted
  {
  }

  /** Steps of others: no guest comes or goes, no recorded VMID changes, new rows have none. */
  lemma QuietConserves(s: State, s': State)
    requires WorkerOk(s) && WorkerOk(s') && GuestRefs(s) && Conserving(s)
    requires s'.worker == s.worker && s'.guests == s.guests && s'.doomed == s.doomed
    requires |s.vms| <= |s'.vms| && |s.jobs| <= |s'.jobs|
    requires forall v :: 0 <= v < |s.vms| ==>
      s'.vms[v].vmid == s.vms[v].vmid && s'.vms[v].deleted == s.vms[v].deleted
    requires forall v :: |s.vms| <= v < |s'.vms| ==> s'.vms[v].vmid == None
    requires s.worker.Busy? ==>
      var j := s.worker.job; s'.jobs[j].vm == s.jobs[j].vm && s'.jobs[j].kind == s.jobs[j].kind
    ensures Conserving(s')
  {
  }

  lemma VanishConserves(s: State, g: Vmid)
    requires WorkerOk(s) && Conserving(s) && g in s.guests && g in s.doomed
    ensures WorkerOk(Apply(s, Vanish(g))) && Conserving(Apply(s, Vanish(g)))
  {
  }

  lemma TakeConserves(s: State)
    requires CanTake(s) && Conserving(s)
    ensures WorkerOk(TakeJob(s)) && Conserving(TakeJob(s))
  {
  }

  lemma AdvanceConserves(s: State, i: nat)
    requires WorkerOk(s) && HandlerRefs(|s.vms|, s.handlers) && GuestRefs(s) && Conserving(s) && CanAdvance(s, i)
    ensures WorkerOk(AdvanceHandler(s, i)) && Conserving(AdvanceHandler(s, i))
  {
    QuietConserves(s, AdvanceHandler(s, i));
  }

  lemma RestConserves(s: State, step: Step)
    requires WorkerOk(s) && GuestRefs(s) && Conserving(s) && Enabled(s, step)
    requires step.RequestCreate? || step.RequestJob? || step.RequestSshCheck? || step.Abandon?
      || step.Requeue? || step.CommitRequeue?
    ensures WorkerOk(Apply(s, step)) && Conserving(Apply(s, step))
  {
    QuietConserves(s, Apply(s, step));
  }

  lemma LoadedWaits(s: State)
    requires Tickets(s) && s.worker.Busy? && s.worker.at.Loaded?
    ensures s.jobs[s.worker.job].status == JobQueued
  {
    assert WorkerTicket(s.worker) == Some(s.worker.job);
  }

  lemma WorkConserves(s: State, a: Answer)
    requires WorkerOk(s) && CanWork(s, a) && Conserving(s) && Calm(s, Work(a))
    requires s.worker.at.Loaded? ==>
      Fresh(s) && s.jobs[s.worker.job].status == JobQueued && Harmless(LocalOf(s))
    requires !EdgePlace(s.worker.at) ==> Rows(s)
    ensures WorkerOk(DoWork(s, a)) && Conserving(DoWork(s, a))
  {
    if s.worker.at.Loaded? { StartConserves(s, a); }
    else if EdgePlace(s.worker.at) { EndConserves(s, a); }
    else { BodyConserves(s, a); }
  }

  /** Each calm step conserves, if a job that starts is harmless. */
  lemma StepConserves(s: State, step: Step)
    requires Inv(s) && Enabled(s, step) && Conserving(s) && Calm(s, step)
    requires step.Work? && s.worker.at.Loaded? ==> Harmless(LocalOf(s))
    ensures WorkerOk(Apply(s, step)) && Conserving(Apply(s, step))
  {
    if step.Work? {
      if s.worker.at.Loaded? { LoadedWaits(s); }
      WorkConserves(s, step.answer);
    }
    else if step.Vanish? { VanishConserves(s, step.guest); }
    else if step.Take? { TakeConserves(s); }
    else if step.Advance? { AdvanceConserves(s, step.handler); }
    else { RestConserves(s, step); }
  }
}
