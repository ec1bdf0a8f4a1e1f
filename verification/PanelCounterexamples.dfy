/** Runs without a crash or a failing call that break the correspondence of guests and live
    rows: why the harmlessness of each job is needed. */
module PanelCounterexamples {
  import opened Wrappers
  import opened Entities
  import opened Panel
  import opened PanelFrames
  import opened PanelInvariant
  import opened PanelConservation
  import opened PanelGuests
  import opened PanelHarm

  const IP := "10.1.10.50"

  /** Reached from the first deployment on without a crash, a lost task or a failing call. */
  ghost predicate SmoothRun(run: seq<State>, steps: seq<Step>) {
    IsRun(run, steps) && AllSmooth(run, steps)
  }

  ghost predicate AllSmooth(run: seq<State>, steps: seq<Step>) {
    |run| > |steps| && forall i :: 0 <= i < |steps| ==> Smooth(run[i], steps[i]) || run[i] == INIT
  }

  ghost predicate SmoothReach(s: State) {
    exists run, steps :: SmoothRun(run, steps) && run[|steps|] == s
  }

  lemma RunAppend(run: seq<State>, steps: seq<Step>, step: Step, s': State)
    requires IsRun(run, steps) && Enabled(run[|steps|], step) && s' == Apply(run[|steps|], step)
    ensures IsRun(run + [s'], steps + [step])
  {
    var run', steps' := run + [s'], steps + [step];
    forall i | 0 <= i < |steps'| ensures Enabled(run'[i], steps'[i]) && run'[i + 1] == Apply(run'[i], steps'[i]) {
      assert run'[i] == run[i];
      if i < |steps| { assert run'[i + 1] == run[i + 1] && steps'[i] == steps[i]; }
    }
  }

  lemma SmoothAppend(run: seq<State>, steps: seq<Step>, step: Step, s': State)
    requires |run| == |steps| + 1 && AllSmooth(run, steps) && (Smooth(run[|steps|], step) || run[|steps|] == INIT)
    ensures AllSmooth(run + [s'], steps + [step])
  {
    var run', steps' := run + [s'], steps + [step];
    assert forall i :: 0 <= i < |run| ==> run'[i] == run[i];
    assert forall i :: 0 <= i < |steps| ==> steps'[i] == steps[i];
  }

  lemma TakeStep(s: State, step: Step) returns (s': State)
    requires SmoothReach(s) && Enabled(s, step) && (Smooth(s, step) || s == INIT)
    ensures s' == Apply(s, step) && SmoothReach(s')
  {
    s' := Apply(s, step);
    var run, steps :| SmoothRun(run, steps) && run[|steps|] == s;
    RunAppend(run, steps, step, s');
    SmoothAppend(run, steps, step, s');
    assert SmoothRun(run + [s'], steps + [step]);
  }

  lemma NextRequestJob(s: State, kind: JobKind, v: VmRow) returns (s': State)
    requires SmoothReach(s) && s.phase == Serving && v < |s.vms| && GuardPasses(kind, s.vms[v])
    ensures s' == s.(handlers := s.handlers + [Guarded(kind, v)]) && SmoothReach(s')
  {
    s' := TakeStep(s, RequestJob(kind, v));
  }

  /** A handler commits its job. */
  lemma NextCommit(s: State, i: nat) returns (s': State)
    requires SmoothReach(s) && s.phase == Serving && i < |s.handlers| && s.handlers[i].Guarded?
    ensures SmoothReach(s')
    ensures s' == s.(handlers := s.handlers[i := Enqueueing(|s.jobs|)],
                     jobs := s.jobs + [Job(s.handlers[i].kind, JobQueued, s.handlers[i].vm, None)])
  {
    s' := NextAdvance(s, i);
  }

  /** A handler enqueues its job. */
  lemma NextEnqueue(s: State, i: nat) returns (s': State)
    requires SmoothReach(s) && s.phase == Serving && i < |s.handlers| && s.handlers[i].Enqueueing?
    ensures SmoothReach(s')
    ensures s' == s.(handlers := s.handlers[i := Done], queue := s.queue + [s.handlers[i].job])
  {
    s' := NextAdvance(s, i);
  }

  lemma NextEdge(s: State) returns (s': State)
    requires SmoothReach(s) && s.phase == Serving && WorkerOk(s) && s.worker.Busy? && EdgePlace(s.worker.at)
    ensures s' == DoEdge(s) && SmoothReach(s')
  {
    s' := TakeStep(s, Work(Ok));
  }

  lemma NextAdvance(s: State, i: nat) returns (s': State)
    requires SmoothReach(s) && CanAdvance(s, i)
    ensures s' == AdvanceHandler(s, i) && SmoothReach(s')
  {
    s' := TakeStep(s, Advance(i));
  }

  /** A move of the running job, or of Proxmox for it. */
  datatype JobMove = Answered(a: Answer) | Gone(g: Vmid)

  predicate CanMove(l: Local, m: JobMove) {
    match m
    case Answered(a) =>
      && !EdgePlace(l.at) && CanAnswer(l, a)
      && !a.LostGuest? && (l.at.AwaitClone? || l.at.AwaitDestroy? ==> a.Ok?)
      && !DoBody(l, a).at.Failing?
    case Gone(g) => g in l.guests && g in l.doomed
  }

  function AfterMove(l: Local, m: JobMove): Local
    requires CanMove(l, m)
  {
    match m
    case Answered(a) => DoBody(l, a)
    case Gone(g) => l.(guests := l.guests - {g}, doomed := l.doomed - {g})
  }

  /** The job can get from l to l' by such moves. */
  ghost predicate Gets(l: Local, l': Local, moves: seq<JobMove>) 
    decreases |moves|
  {
    if moves == [] then l == l'
    else CanMove(l, moves[0]) && Gets(AfterMove(l, moves[0]), l', moves[1..])
  }

  /** l after a delete job that destroyed guest g. */
  function Emptied(l: Local, g: Vmid): Local {
    l.(vm := l.vm.(status := Deleted, deleted := true), at := Finish, guests := l.guests - {g})
  }

  /** l after a create or reinstall job that cloned guest g. */
  function Provisioned(l: Local, g: Vmid): Local {
    l.(vm := l.vm.(vmid := Some(g), status := Running, ip := Some(IP)), at := Finish,
       job := l.job.(target := Some(g)), guests := l.guests[g := l.v])
  }

  lemma LeadsFirst(l: Local, m: JobMove, l1: Local, l': Local, moves: seq<JobMove>)
    requires CanMove(l, m) && l1 == AfterMove(l, m) && Gets(l1, l', moves)
    ensures Gets(l, l', [m] + moves)
  {
    assert ([m] + moves)[1..] == moves;
  }

  lemma LeadsSetup(l: Local, a: Answer, l1: Local, l': Local, moves: seq<JobMove>)
    requires SetupPlace(l.at) && CanAnswer(l, a) && !a.LostGuest?
    requires l1 == DoSetup(l, a) && !l1.at.Failing? && Gets(l1, l', moves)
    ensures Gets(l, l', [Answered(a)] + moves)
  {
    LeadsFirst(l, Answered(a), l1, l', moves);
  }

  lemma LeadsDestroy(l: Local, a: Answer, l1: Local, l': Local, moves: seq<JobMove>)
    requires DestroyPlace(l.at) && CanAnswer(l, a) && !a.LostGuest? && (l.at.AwaitDestroy? ==> a.Ok?)
    requires l1 == DoDestroy(l, a) && !l1.at.Failing? && Gets(l1, l', moves)
    ensures Gets(l, l', [Answered(a)] + moves)
  {
    LeadsFirst(l, Answered(a), l1, l', moves);
  }

  lemma LeadsClone(l: Local, a: Answer, l1: Local, l': Local, moves: seq<JobMove>)
    requires ClonePlace(l.at) && CanAnswer(l, a) && !a.LostGuest? && (l.at.AwaitClone? ==> a.Ok?)
    requires l1 == DoClone(l, a) && !l1.at.Failing? && Gets(l1, l', moves)
    ensures Gets(l, l', [Answered(a)] + moves)
  {
    LeadsFirst(l, Answered(a), l1, l', moves);
  }

  /** destroy_existing_vm on a guest that exists, from its DELETE on, and the delete itself. */
  lemma DestroyLeads(l: Local, g: Vmid) returns (moves: seq<JobMove>)
    requires l.at == Destroy && l.job.kind == DeleteVm && l.vm.vmid == Some(g) && g in l.guests && l.doomed == {}
    ensures Gets(l, Emptied(l, g), moves)
  {
    var ok := Answered(Ok);
    var l4 := Emptied(l, g);
    var l3 := l4.(vm := l.vm, at := Destroyed);
    LeadsDestroy(l3, Ok, l4, l4, []);
    var l2 := l3.(at := AwaitDestroy);
    LeadsDestroy(l2, Ok, l3, l4, [ok]);
    moves := [ok] + [ok];
    var l1 := l2.(guests := l.guests, doomed := {g});
    assert {g} - {g} == {} && {} + {g} == {g};
    LeadsFirst(l1, Gone(g), l2, l4, moves);
    LeadsDestroy(l, Ok, l1, l4, [Gone(g)] + moves);
    moves := [ok] + ([Gone(g)] + moves);
  }

  lemma DeleteLeads(l: Local, g: Vmid) returns (moves: seq<JobMove>)
    requires l.at == Begin && l.job.kind == DeleteVm && l.vm.vmid == Some(g) && g in l.guests && l.doomed == {}
    ensures Gets(l, Emptied(l, g), moves)
  {
    var ok := Answered(Ok);
    var l4 := Emptied(l, g);
    var l3 := l.(vm := l.vm.(status := Deleting), at := Destroy);
    moves := DestroyLeads(l3, g);
    var l2 := l3.(at := StopGuest);
    LeadsDestroy(l2, Ok, l3, l4, moves);
    moves := [ok] + moves;
    var l1 := l3.(at := Resolve);
    LeadsDestroy(l1, Ok, l2, l4, moves);
    LeadsFirst(l, ok, l1, l4, [ok] + moves);
    moves := [ok] + ([ok] + moves);
  }

  lemma CreateLeads(l: Local, g: Vmid) returns (moves: seq<JobMove>)
    requires l.at == Begin && l.job.kind == CreateVm && g !in l.guests && l.vm.ssh == l.ssh == SshPending && l.doomed == {}
    ensures Gets(l, Provisioned(l, g), moves)
  {
    moves := ProvisionLeads(l.(at := Provision), g);
    var l' := Provisioned(l, g);
    LeadsFirst(l, Answered(Ok), l.(at := Provision), l', moves);
    moves := [Answered(Ok)] + moves;
  }

  lemma AddressLeads(l: Local, g: Vmid) returns (moves: seq<JobMove>)
    requires l.at == AwaitIp(g)
    ensures Gets(l, l.(vm := l.vm.(ip := Some(IP)), at := Finish), moves)
  {
    var address := Address(IP);
    var l2 := l.(vm := l.vm.(ip := Some(IP)), at := Finish);
    var l1 := l2.(at := ResetIdentity(g));
    LeadsSetup(l1, address, l2, l2, []);
    LeadsSetup(l, address, l1, l2, [Answered(address)]);
    moves := [Answered(address)] + [Answered(address)];
  }

  /** Provisioning in which every call succeeds, once the clone is recorded. */
  lemma SetupLeads(l: Local, g: Vmid) returns (moves: seq<JobMove>)
    requires l.at == Configure(g)
    ensures Gets(l, l.(vm := l.vm.(status := Running, ip := Some(IP)), at := Finish), moves)
  {
    var sized := Size(None, true);
    var l4 := l.(vm := l.vm.(status := Running, ip := Some(IP)), at := Finish);
    var l3 := l.(vm := l.vm.(status := Running), at := AwaitIp(g));
    moves := AddressLeads(l3, g);
    var l2 := l.(at := BootGuest(g));
    LeadsSetup(l2, Ok, l3, l4, moves);
    moves := [Answered(Ok)] + moves;
    var l1 := l.(at := Resize(g));
    LeadsSetup(l1, sized, l2, l4, moves);
    LeadsSetup(l, Ok, l1, l4, [Answered(sized)] + moves);
    moves := [Answered(Ok)] + ([Answered(sized)] + moves);
  }

  /** Provisioning in which every call succeeds. */
  lemma ProvisionLeads(l: Local, g: Vmid) returns (moves: seq<JobMove>)
    requires l.at == Provision && g !in l.guests && l.vm.ssh == l.ssh == SshPending
    ensures Gets(l, Provisioned(l, g), moves)
  {
    var l5 := Provisioned(l, g);
    var l4 := l5.(at := Configure(g), vm := l.vm.(vmid := Some(g), status := Provisioning));
    moves := SetupLeads(l4, g);
    assert l4.(vm := l4.vm.(status := Running, ip := Some(IP)), at := Finish) == l5;
    var l3 := l5.(at := AwaitClone(g), vm := l.vm);
    LeadsClone(l3, Ok, l4, l5, moves);
    moves := [Answered(Ok)] + moves;
    var l2 := l3.(at := Cloned(g), job := l.job);
    LeadsClone(l2, Ok, l3, l5, moves);
    moves := [Answered(Ok)] + moves;
    var l1 := l.(at := Clone);
    LeadsClone(l1, NewGuest(g), l2, l5, moves);
    moves := [Answered(NewGuest(g))] + moves;
    LeadsClone(l, Ok, l1, l5, moves);
    moves := [Answered(Ok)] + moves;
  }

  /** The moves of a job are steps of the whole system. */
  lemma {:induction false} Lift(s: State, l: Local, l': Local, moves: seq<JobMove>)
    requires WorkerOk(s) && s.worker.Busy? && s.phase == Serving
    requires l.v == LocalOf(s).v && l.job.vm == l.v && l'.v == l.v
    requires SmoothReach(Put(s, l)) && Gets(l, l', moves)
    ensures SmoothReach(Put(s, l'))
    decreases |moves|
  {
    if moves != [] {
      var l1 := AfterMove(l, moves[0]);
      LiftOne(s, l, moves[0]);
      Lift(s, l1, l', moves[1..]);
    }
  }

  lemma LiftOne(s: State, l: Local, m: JobMove)
    requires WorkerOk(s) && s.worker.Busy? && s.phase == Serving
    requires l.v == LocalOf(s).v && l.job.vm == l.v
    requires SmoothReach(Put(s, l)) && CanMove(l, m)
    ensures var l' := AfterMove(l, m); l'.v == l.v && l'.job.vm == l.v && SmoothReach(Put(s, l'))
  {
    var s1 := Put(s, l);
    var l' := AfterMove(l, m);
    assert LocalOf(s1) == l;
    match m
    case Answered(a) =>
      BodyFrame(l, a);
      var s2 := TakeStep(s1, Work(a));
      assert s2 == Put(s, l');
    case Gone(g) =>
      var s2 := TakeStep(s1, Vanish(g));
      assert s2 == Put(s, l');
  }

  /** What the job at the head of the queue works on when it begins. */
  function Begun(s: State): Local
    requires CanTake(s)
  {
    var job := s.jobs[s.queue[0]];
    Local(job.vm, s.vms[job.vm], job.(status := JobRunning), Begin, s.vms[job.vm].ssh, s.guests, s.doomed)
  }

  /** The state in which that job has got to l. */
  function GotTo(s: State, l: Local): State
    requires CanTake(s) && l.v == Begun(s).v
  {
    var j := s.queue[0];
    s.(queue := s.queue[1..], started := s.started + [j], worker := Busy(j, l.at, l.ssh),
       vms := s.vms[l.v := l.vm], jobs := s.jobs[j := l.job], guests := l.guests, doomed := l.doomed)
  }

  /** The worker takes the next job and starts it. */
  lemma Start(s: State) returns (s': State)
    requires SmoothReach(s) && s.phase == Serving && CanTake(s)
    ensures s' == GotTo(s, Begun(s)) && SmoothReach(s') && WorkerOk(s')
  {
    var s1 := TakeStep(s, Take);
    s' := NextEdge(s1);
  }

  /** The worker takes the next job, which gets to l'. */
  lemma RunTo(s: State, l': Local, moves: seq<JobMove>) returns (s': State)
    requires SmoothReach(s) && s.phase == Serving && CanTake(s)
    requires l'.v == Begun(s).v && l'.job.vm == l'.v && Gets(Begun(s), l', moves)
    ensures s' == GotTo(s, l') && SmoothReach(s') && WorkerOk(s')
  {
    var s1 := Start(s);
    assert LocalOf(s1) == Begun(s) && Put(s1, Begun(s)) == s1;
    Lift(s1, Begun(s), l', moves);
    s' := Put(s1, l');
    assert s' == GotTo(s, l');
  }

  /** The state after the job at the head of the queue has run. */
  ghost function RanAs(s: State, vm: Vm, job: Job, guests: map<Vmid, VmRow>): State
    requires CanTake(s)
  {
    var j := s.queue[0];
    s.(queue := s.queue[1..], started := s.started + [j],
       vms := s.vms[s.jobs[j].vm := vm], jobs := s.jobs[j := job], guests := guests)
  }

  /** The same with an SSH check for VM v queued. */
  function WithCheck(s: State, v: VmRow): State {
    s.(queue := s.queue + [|s.jobs|], jobs := s.jobs + [Job(SshCheck, JobQueued, v, None)])
  }

  /** The success of a job that is not followed by an SSH check. */
  lemma FinishPlain(s: State) returns (s': State)
    requires SmoothReach(s) && s.phase == Serving && WorkerOk(s) && s.worker.Busy? && s.worker.at == Finish
    requires !SpawnsCheck(s.jobs[s.worker.job].kind)
    ensures SmoothReach(s')
    ensures var j := s.worker.job;
      s' == s.(worker := Idle, jobs := s.jobs[j := s.jobs[j].(status := JobSuccess)])
  {
    s' := NextEdge(s);
  }

  /** The success of a job that is followed by an SSH check. */
  lemma FinishAndCheck(s: State) returns (s': State)
    requires SmoothReach(s) && s.phase == Serving && WorkerOk(s) && s.worker.Busy? && s.worker.at == Finish
    requires SpawnsCheck(s.jobs[s.worker.job].kind)
    ensures SmoothReach(s')
    ensures var j := s.worker.job;
      s' == WithCheck(s.(worker := Idle, jobs := s.jobs[j := s.jobs[j].(status := JobSuccess)]), s.jobs[j].vm)
  {
    var s1 := NextEdge(s);
    var s2 := NextEdge(s1);
    s' := NextEdge(s2);
  }

  lemma RunDelete(s: State) returns (s': State)
    requires SmoothReach(s) && s.phase == Serving && CanTake(s) && s.doomed == {} && s.worker == Idle
    requires s.jobs[s.queue[0]].kind == DeleteVm
    requires var vm := s.vms[s.jobs[s.queue[0]].vm]; vm.vmid.Some? && vm.vmid.value in s.guests
    ensures SmoothReach(s')
    ensures var job := s.jobs[s.queue[0]];
      var vm := s.vms[job.vm];
      s' == RanAs(s, vm.(status := Deleted, deleted := true), job.(status := JobSuccess), s.guests - {vm.vmid.value})
  {
    var l := Begun(s);
    var g := l.vm.vmid.value;
    var moves := DeleteLeads(l, g);
    var s1 := RunTo(s, Emptied(l, g), moves);
    s' := FinishPlain(s1);
  }

  lemma RunCreate(s: State, g: Vmid) returns (s': State)
    requires SmoothReach(s) && s.phase == Serving && CanTake(s) && s.doomed == {} && s.worker == Idle && g !in s.guests
    requires s.jobs[s.queue[0]].kind == CreateVm && s.vms[s.jobs[s.queue[0]].vm].ssh == SshPending
    ensures SmoothReach(s')
    ensures var job := s.jobs[s.queue[0]];
      s' == WithCheck(RanAs(s, s.vms[job.vm].(vmid := Some(g), status := Running, ip := Some(IP)),
                            job.(status := JobSuccess, target := Some(g)), s.guests[g := job.vm]), job.vm)
  {
    var l := Begun(s);
    var moves := CreateLeads(l, g);
    var s1 := RunTo(s, Provisioned(l, g), moves);
    s' := FinishAndCheck(s1);
  }

  lemma CheckLeads(l: Local) returns (moves: seq<JobMove>)
    requires l.at == Begin && l.job.kind == SshCheck && l.vm.ip.Some? && l.vm.ssh == l.ssh == SshPending
    ensures Gets(l, l.(vm := l.vm.(ssh := SshReady), ssh := SshReady, at := Finish), moves)
  {
    var l' := l.(vm := l.vm.(ssh := SshReady), ssh := SshReady, at := Finish);
    LeadsFirst(l.(at := Probe), Answered(Ok), l', l', []);
    LeadsFirst(l, Answered(Ok), l.(at := Probe), l', [Answered(Ok)]);
    moves := [Answered(Ok)] + [Answered(Ok)];
  }

  lemma RunCheck(s: State) returns (s': State)
    requires SmoothReach(s) && s.phase == Serving && CanTake(s) && s.worker == Idle
    requires s.jobs[s.queue[0]].kind == SshCheck
    requires var vm := s.vms[s.jobs[s.queue[0]].vm]; vm.ip.Some? && vm.ssh == SshPending
    ensures SmoothReach(s')
    ensures var job := s.jobs[s.queue[0]];
      s' == RanAs(s, s.vms[job.vm].(ssh := SshReady), job.(status := JobSuccess), s.guests)
  {
    var l := Begun(s);
    var moves := CheckLeads(l);
    var s1 := RunTo(s, l.(vm := l.vm.(ssh := SshReady), ssh := SshReady, at := Finish), moves);
    s' := FinishPlain(s1);
  }

  /** A create request served without interruption. */
  lemma ServeCreate(s: State, host: string) returns (s': State)
    requires SmoothReach(s) && s.phase == Serving && s.lock == None && !HostTaken(s.vms, Lower(host))
    ensures SmoothReach(s')
    ensures s' == s.(handlers := s.handlers + [Done], vms := s.vms + [NewVm(Lower(host), 12)],
                     jobs := s.jobs + [Job(CreateVm, JobQueued, |s.vms|, None)], queue := s.queue + [|s.jobs|])
  {
    var i := |s.handlers|;
    var s1 := TakeStep(s, RequestCreate(host, 12, 12));
    var s2 := NextAdvance(s1, i);
    var s3 := NextAdvance(s2, i);
    assert s3 == s.(handlers := s.handlers + [Rechecked(Lower(host), 12)], lock := Some(i));
    var s4 := NextAdvance(s3, i);
    var s5 := NextAdvance(s4, i);
    s' := NextAdvance(s5, i);
  }

  lemma MarkedReached()
    ensures SmoothReach(INIT.(phase := Marked))
  {
    var steps: seq<Step> := [];
    assert SmoothRun([INIT], steps) && [INIT][|steps|] == INIT;
    var s := TakeStep(INIT, MarkOrphans);
    assert s == INIT.(phase := Marked);
  }

  lemma RequeuedReached()
    ensures SmoothReach(INIT.(phase := Requeued({})))
  {
    MarkedReached();
    var s := TakeStep(INIT.(phase := Marked), Requeue([]));
    assert Unresumable([]) == {};
    assert s == INIT.(phase := Requeued({}));
  }

  /** The panel after its first startup. */
  lemma ServingReached() returns (s: State)
    ensures s == INIT.(phase := Serving) && SmoothReach(s)
  {
    RequeuedReached();
    s := TakeStep(INIT.(phase := Requeued({})), CommitRequeue);
  }

  const VM_A := Vm("a", 12, Some(100), Running, SshPending, Some(IP), false)
  const JOB_A := Job(CreateVm, JobSuccess, 0, Some(100))

  /** The panel with one running VM, recorded as guest 100. */
  const ONE_VM := State(
    [VM_A.(ssh := SshReady)], [JOB_A, Job(SshCheck, JobSuccess, 0, None)],
    Serving, [], Idle, [Done], None, map[100 := 0], {}, [0, 1])

  /** As ONE_VM, before the create job ran and before its SSH check ran. */
  const ASKED := ONE_VM.(
    vms := [NewVm("a", 12)], jobs := [Job(CreateVm, JobQueued, 0, None)], queue := [0], guests := map[], started := [])
  const CREATED := ONE_VM.(
    vms := [VM_A], jobs := [JOB_A, Job(SshCheck, JobQueued, 0, None)], queue := [1], started := [0])

  lemma AlreadyLower(s: string)
    requires forall i :: 0 <= i < |s| ==> 'a' <= s[i] <= 'z'
    ensures Lower(s) == s
  {
  }

  lemma AskedReached()
    ensures SmoothReach(ASKED)
  {
    var s0 := ServingReached();
    AlreadyLower("a");
    var s1 := ServeCreate(s0, "a");
    assert s1 == ASKED;
  }

  lemma CreatedReached()
    ensures SmoothReach(CREATED)
  {
    AskedReached();
    var s := RunCreate(ASKED, 100);
    assert s == CREATED;
  }

  lemma OneVmReached()
    ensures SmoothReach(ONE_VM)
  {
    CreatedReached();
    var s := RunCheck(CREATED);
    assert s == ONE_VM;
  }

  // ---------------------------------------------------------------- [delete A, create B, delete A]

  const CHECK_A := Job(SshCheck, JobSuccess, 0, None)
  const DELETE_A := Job(DeleteVm, JobQueued, 0, None)
  const DELETE_A_DONE := Job(DeleteVm, JobSuccess, 0, None)
  const DEAD_A := Vm("a", 12, Some(100), Deleted, SshReady, Some(IP), true)
  const CREATE_B := Job(CreateVm, JobQueued, 1, None)
  const CREATE_B_DONE := Job(CreateVm, JobSuccess, 1, Some(100))
  const CHECK_B := Job(SshCheck, JobQueued, 1, None)
  const VM_B := Vm("b", 12, Some(100), Running, SshPending, Some(IP), false)

  /** Two delete requests for A passed the state guard; the first is queued. */
  const FIRST_QUEUED := State(
    [VM_A.(ssh := SshReady)], [JOB_A, CHECK_A, DELETE_A],
    Serving, [2], Idle, [Done, Done, Guarded(DeleteVm, 0)], None, map[100 := 0], {}, [0, 1])
  /** The creation of B is queued, then the second delete of A. */
  const B_QUEUED := State(
    [VM_A.(ssh := SshReady), NewVm("b", 12)], [JOB_A, CHECK_A, DELETE_A, CREATE_B],
    Serving, [2, 3], Idle, [Done, Done, Guarded(DeleteVm, 0), Done], None, map[100 := 0], {}, [0, 1])
  const ALL_QUEUED := State(
    [VM_A.(ssh := SshReady), NewVm("b", 12)], [JOB_A, CHECK_A, DELETE_A, CREATE_B, DELETE_A],
    Serving, [2, 3, 4], Idle, [Done, Done, Done, Done], None, map[100 := 0], {}, [0, 1])
  /** The first delete ran; then B was cloned under the VMID that had become free. */
  const A_DELETED := State(
    [DEAD_A, NewVm("b", 12)], [JOB_A, CHECK_A, DELETE_A_DONE, CREATE_B, DELETE_A],
    Serving, [3, 4], Idle, [Done, Done, Done, Done], None, map[], {}, [0, 1, 2])
  const B_CREATED := State(
    [DEAD_A, VM_B], [JOB_A, CHECK_A, DELETE_A_DONE, CREATE_B_DONE, DELETE_A, CHECK_B],
    Serving, [4, 5], Idle, [Done, Done, Done, Done], None, map[100 := 1], {}, [0, 1, 2, 3])
  /** The second delete of A has destroyed B's guest. */
  const B_ROBBED := State(
    [DEAD_A, VM_B], [JOB_A, CHECK_A, DELETE_A_DONE, CREATE_B_DONE, DELETE_A_DONE, CHECK_B],
    Serving, [5], Idle, [Done, Done, Done, Done], None, map[], {}, [0, 1, 2, 3, 4])

  lemma FirstQueued()
    ensures SmoothReach(FIRST_QUEUED)
  {
    OneVmReached();
    var s1 := NextRequestJob(ONE_VM, DeleteVm, 0);
    var s2 := NextRequestJob(s1, DeleteVm, 0);
    assert s2.handlers == [Done, Guarded(DeleteVm, 0), Guarded(DeleteVm, 0)];
    var s3 := NextCommit(s2, 1);
    var s4 := NextEnqueue(s3, 1);
    assert s4 == FIRST_QUEUED;
  }

  lemma AllQueued()
    ensures SmoothReach(ALL_QUEUED)
  {
    FirstQueued();
    AlreadyLower("a");
    AlreadyLower("b");
    var s1 := ServeCreate(FIRST_QUEUED, "b");
    assert s1 == B_QUEUED;
    var s2 := NextCommit(s1, 2);
    var s3 := NextEnqueue(s2, 2);
    assert s3 == ALL_QUEUED;
  }

  lemma ADeleted()
    ensures SmoothReach(A_DELETED)
  {
    AllQueued();
    var s := RunDelete(ALL_QUEUED);
    assert s == A_DELETED;
  }

  lemma BCreated()
    ensures SmoothReach(B_CREATED)
  {
    ADeleted();
    var s := RunCreate(A_DELETED, 100);
    assert s.vms == [DEAD_A, VM_B];
    assert s == B_CREATED;
  }

  /** No call fails and nothing crashes, but the second delete of A, run after B reused A's
      VMID, destroys B's guest: the live row B names a guest that does not exist. */
  lemma DeleteAgainRobsB()
    ensures SmoothReach(B_ROBBED) && B_ROBBED.worker == Idle
    ensures !B_ROBBED.vms[1].deleted && B_ROBBED.vms[1].vmid == Some(100) && 100 !in B_ROBBED.guests
    ensures !Exact(B_ROBBED)
  {
    BCreated();
    var s := RunDelete(B_CREATED);
    assert s == B_ROBBED;
  }

  // ---------------------------------------------------------------- a reinstall overtaken by a delete

  const REINSTALL_A := Job(ReinstallVm, JobQueued, 0, None)

  /** The reinstall is committed before the delete, but the delete is enqueued first. */
  const BOTH_COMMITTED := State(
    [VM_A.(ssh := SshReady)], [JOB_A, CHECK_A, REINSTALL_A, DELETE_A],
    Serving, [], Idle, [Done, Enqueueing(2), Enqueueing(3)], None, map[100 := 0], {}, [0, 1])
  const OVERTAKEN := State(
    [VM_A.(ssh := SshReady)], [JOB_A, CHECK_A, REINSTALL_A, DELETE_A],
    Serving, [3, 2], Idle, [Done, Done, Done], None, map[100 := 0], {}, [0, 1])
  const A_GONE := State(
    [DEAD_A], [JOB_A, CHECK_A, REINSTALL_A, DELETE_A_DONE],
    Serving, [2], Idle, [Done, Done, Done], None, map[], {}, [0, 1, 3])
  /** The reinstall has cloned a guest for the deleted row. */
  const A_HAUNTED := State(
    [VM_A.(deleted := true)],
    [JOB_A, CHECK_A, Job(ReinstallVm, JobSuccess, 0, Some(100)), DELETE_A_DONE, Job(SshCheck, JobQueued, 0, None)],
    Serving, [4], Idle, [Done, Done, Done], None, map[100 := 0], {}, [0, 1, 3, 2])

  lemma BothCommitted()
    ensures SmoothReach(BOTH_COMMITTED)
  {
    OneVmReached();
    var s1 := NextRequestJob(ONE_VM, ReinstallVm, 0);
    var s2 := NextRequestJob(s1, DeleteVm, 0);
    assert s2.handlers == [Done, Guarded(ReinstallVm, 0), Guarded(DeleteVm, 0)];
    var s3 := NextCommit(s2, 1);
    var s4 := NextCommit(s3, 2);
    assert s4 == BOTH_COMMITTED;
  }

  lemma Overtaken()
    ensures SmoothReach(OVERTAKEN)
  {
    BothCommitted();
    var s1 := NextEnqueue(BOTH_COMMITTED, 2);
    var s2 := NextEnqueue(s1, 1);
    assert s2 == OVERTAKEN;
  }

  lemma AGone()
    ensures SmoothReach(A_GONE)
  {
    Overtaken();
    var s := RunDelete(OVERTAKEN);
    assert s == A_GONE;
  }

  function Unready(l: Local): Local {
    l.(vm := l.vm.(ssh := SshPending), ssh := SshPending)
  }

  /** A reinstall whose recorded guest is already absent. */
  lemma ReinstallLeads(l: Local, g: Vmid) returns (moves: seq<JobMove>)
    requires l.at == Begin && l.job.kind == ReinstallVm && l.vm.vmid.Some? && l.vm.vmid.value !in l.guests
    requires g !in l.guests && l.vm.ssh == l.ssh == SshReady
    ensures Gets(l, Provisioned(Unready(l), g), moves)
  {
    var l' := Provisioned(Unready(l), g);
    var l2 := Unready(l).(vm := l.vm.(status := Deleting, ssh := SshPending), at := Destroyed);
    moves := RebuildLeads(l2, g);
    assert Provisioned(l2, g) == l';
    var l1 := l2.(at := Resolve);
    LeadsDestroy(l1, Missing, l2, l', moves);
    moves := [Answered(Missing)] + moves;
    LeadsFirst(l, Answered(Ok), l1, l', moves);
    moves := [Answered(Ok)] + moves;
  }

  lemma RebuildLeads(l: Local, g: Vmid) returns (moves: seq<JobMove>)
    requires l.at == Destroyed && l.job.kind == ReinstallVm && g !in l.guests && l.vm.ssh == l.ssh == SshPending
    ensures Gets(l, Provisioned(l, g), moves)
  {
    var l1 := l.(vm := l.vm.(vmid := None, ip := None, status := Provisioning), at := Provision);
    moves := ProvisionLeads(l1, g);
    assert Provisioned(l1, g) == Provisioned(l, g);
    LeadsDestroy(l, Ok, l1, Provisioned(l, g), moves);
    moves := [Answered(Ok)] + moves;
  }

  lemma RunReinstall(s: State, g: Vmid) returns (s': State)
    requires SmoothReach(s) && s.phase == Serving && CanTake(s) && s.worker == Idle && s.doomed == {} && g !in s.guests
    requires s.jobs[s.queue[0]].kind == ReinstallVm
    requires var vm := s.vms[s.jobs[s.queue[0]].vm];
      vm.ssh == SshReady && vm.vmid.Some? && vm.vmid.value !in s.guests
    ensures SmoothReach(s')
    ensures var job := s.jobs[s.queue[0]];
      s' == WithCheck(RanAs(s, s.vms[job.vm].(vmid := Some(g), status := Running, ip := Some(IP), ssh := SshPending),
                            job.(status := JobSuccess, target := Some(g)), s.guests[g := job.vm]), job.vm)
  {
    var l := Begun(s);
    var moves := ReinstallLeads(l, g);
    var s1 := RunTo(s, Provisioned(Unready(l), g), moves);
    s' := FinishAndCheck(s1);
  }

  /** In commit order the delete is the last word on A, and only the SSH check that the
      reinstall spawns is committed after it. Still the reinstall, enqueued later, runs on
      the deleted row and leaves it a guest. */
  lemma OvertakenReinstallHauntsA()
    ensures SmoothReach(A_HAUNTED) && A_HAUNTED.worker == Idle
    ensures A_HAUNTED.jobs[2].kind == ReinstallVm && A_HAUNTED.jobs[3].kind == DeleteVm
    ensures forall j :: 3 < j < |A_HAUNTED.jobs| ==> A_HAUNTED.jobs[j].kind == SshCheck
    ensures A_HAUNTED.guests == map[100 := 0] && A_HAUNTED.vms[0].deleted
    ensures !Exact(A_HAUNTED)
  {
    AGone();
    var s := RunReinstall(A_GONE, 100);
    assert s == A_HAUNTED;
    assert 100 in A_HAUNTED.guests;
  }

  // ---------------------------------------------------------------- the three ways to lose a guest

  lemma ReachOn(s: State, step: Step)
    requires Reachable(s) && Enabled(s, step)
    ensures Reachable(Apply(s, step))
  {
    var run, steps :| IsRun(run, steps) && run[|steps|] == s;
    RunAppend(run, steps, step, Apply(s, step));
    var run', steps' := run + [Apply(s, step)], steps + [step];
    assert IsRun(run', steps') && run'[|steps'|] == Apply(s, step);
  }

  /** The create job of ASKED when it is about to clone, and when it has cloned guest 100
      without and with a record of it. */
  const CLONING := Begun(ASKED).(at := Clone)
  const CLONED := CLONING.(at := Cloned(100), guests := map[100 := 0])
  const RECORDED := CLONED.(at := AwaitClone(100), job := CLONED.job.(target := Some(100)))

  lemma CloningGets(l: Local, moves: seq<JobMove>)
    requires l.v == l.job.vm == 0 && Gets(CLONING, l, moves)
    ensures CanTake(ASKED) && SmoothReach(GotTo(ASKED, l))
  {
    AskedReached();
    var begun := Begun(ASKED);
    LeadsClone(begun.(at := Provision), Ok, CLONING, l, moves);
    LeadsFirst(begun, Answered(Ok), begun.(at := Provision), l, [Answered(Ok)] + moves);
    var s := RunTo(ASKED, l, [Answered(Ok)] + ([Answered(Ok)] + moves));
  }

  lemma ClonedReached()
    ensures CanTake(ASKED) && SmoothReach(GotTo(ASKED, CLONED))
  {
    LeadsClone(CLONING, NewGuest(100), CLONED, CLONED, []);
    CloningGets(CLONED, [Answered(NewGuest(100))] + []);
  }

  lemma RecordedReached()
    ensures CanTake(ASKED) && SmoothReach(GotTo(ASKED, RECORDED))
  {
    LeadsClone(CLONED, Ok, RECORDED, RECORDED, []);
    LeadsClone(CLONING, NewGuest(100), CLONED, RECORDED, [Answered(Ok)] + []);
    CloningGets(RECORDED, [Answered(NewGuest(100))] + ([Answered(Ok)] + []));
  }

  /** A reachable step that loses guest 100. */
  ghost predicate ReachablyLoses(s: State, step: Step) {
    && Reachable(s) && WorkerOk(s) && Enabled(s, step) && LosesGuest(s, step, 100)
    && Reachable(Apply(s, step)) && GuestRefs(Apply(s, step)) && Lost(Apply(s, step), 100)
  }

  lemma LosingIsLosing(s: State, step: Step)
    requires Reachable(s) && Enabled(s, step) && 100 in Apply(s, step).guests
    requires WorkerOk(s) && LosesGuest(s, step, 100)
    ensures ReachablyLoses(s, step)
  {
    ReachOn(s, step);
    ReachableInv(s);
    LostExactly(s, step, 100);
  }

  lemma SmoothIsReachable(s: State)
    requires SmoothReach(s)
    ensures Reachable(s)
  {
    var run, steps :| SmoothRun(run, steps) && run[|steps|] == s;
  }

  /** The first way happens: a crash between the clone and the commit of its VMID. */
  lemma CrashLosesClone() returns (s: State)
    ensures ReachablyLoses(s, Crash) && s.worker.Busy? && s.worker.at == Cloned(100)
  {
    ClonedReached();
    s := GotTo(ASKED, CLONED);
    SmoothIsReachable(s);
    LosingIsLosing(s, Crash);
  }

  /** The second way happens: Proxmox accepts a clone whose call fails for the panel. */
  lemma FailedCallLosesClone() returns (s: State)
    ensures ReachablyLoses(s, Work(LostGuest(100)))
  {
    CloningGets(CLONING, []);
    s := GotTo(ASKED, CLONING);
    SmoothIsReachable(s);
    LosingIsLosing(s, Work(LostGuest(100)));
  }

  const FAILING := RECORDED.(at := Failing)

  lemma FailingReached()
    ensures CanTake(ASKED) && Reachable(GotTo(ASKED, FAILING))
  {
    RecordedReached();
    var s := GotTo(ASKED, RECORDED);
    SmoothIsReachable(s);
    ReachOn(s, Work(ProxmoxTimeout));
    assert Apply(s, Work(ProxmoxTimeout)) == GotTo(ASKED, FAILING);
  }

  /** The third way happens: the clone task fails, or its end is missed, once the VMID is
      in the job's metadata, and the job ends as failed. */
  lemma FailedJobLosesClone() returns (s: State)
    ensures ReachablyLoses(s, Work(Ok)) && s.worker.Busy? && s.worker.at.Failing?
    ensures Apply(s, Work(Ok)).jobs[0].status == JobFailed && Apply(s, Work(Ok)).jobs[0].target == Some(100)
  {
    FailingReached();
    s := GotTo(ASKED, FAILING);
    LosingIsLosing(s, Work(Ok));
  }
}
