/** What a job does in a run of the whole system: from the moment the worker has loaded it to
    the moment the worker is idle again, with any steps of the others in between. */
module JobRuns {
  import opened Wrappers
  import opened Entities
  import opened Panel
  import opened PanelFrames
  import opened PanelTickets
  import opened PanelHarm
  import opened PanelInterference
  import opened PanelInvariant
  import opened PanelPaths
  import opened JobOutcome

  /** The kinds of job whose success is followed by an SSH check. */
  predicate IsFollowedByCheck(kind: JobKind) {
    kind == CreateVm || kind == ReinstallVm || kind == StartVm || kind == RebootVm
  }

  /** Inside the job function, or at its end: a path led here. */
  ghost predicate OnPath(start: Local, moves: seq<Move>, l: Local) {
    exists meddlings, was, pending :: Path(start, moves, meddlings, was) && l == Meddle(was, pending)
  }

  /** The job row and the VM row of a job that has ended. */
  predicate Ended(start: Local, moves: seq<Move>, s: State, j: JobRow) {
    && j < |s.jobs| && start.v < |s.vms|
    && if NoneFatal(moves)
       then s.jobs[j].status == JobSuccess && Outcome(start, moves, s.vms[start.v], s.jobs[j])
       else s.jobs[j].status == JobFailed && s.vms[start.v].status == Error && RowLeft(start, moves, s.vms[start.v])
  }

  /** An SSH check of VM v waits. */
  predicate IsCheckOf(s: State, c: JobRow, v: VmRow) {
    c < |s.jobs| && s.jobs[c] == Job(SshCheck, JobQueued, v, None)
  }

  /** Where job j of start stands in the run. */
  ghost predicate Stage(start: Local, moves: seq<Move>, s: State, j: JobRow) {
    && WorkerOk(s)
    && if s.worker.Idle? then
         && Ended(start, moves, s, j)
         && (NoneFatal(moves) && IsFollowedByCheck(start.job.kind) ==>
               |s.queue| > 0 && IsCheckOf(s, s.queue[|s.queue| - 1], start.v))
       else
         && s.worker.job == j && s.jobs[j].vm == start.v
         && if s.worker.at.Spawn? || s.worker.at.PutSpawned? then
              && NoneFatal(moves) && IsFollowedByCheck(start.job.kind) && Ended(start, moves, s, j)
              && (s.worker.at.PutSpawned? ==> IsCheckOf(s, s.worker.at.check, start.v))
            else OnPath(start, moves, LocalOf(s))
  }

  lemma LoadedBegins(s: State)
    requires Inv(s) && s.worker.Busy? && s.worker.at.Loaded?
    ensures var start := LocalOf(s).(job := LocalOf(s).job.(status := JobRunning), at := Begin);
      && Begins(start) && WorkerOk(DoEdge(s)) && Stage(start, [], DoEdge(s), s.worker.job)
  {
    LoadedJobIsUntouched(s);
    var start := LocalOf(s).(job := LocalOf(s).job.(status := JobRunning), at := Begin);
    MeddleNothing(start);
    assert Path(start, [], [], start) && LocalOf(DoEdge(s)) == Meddle(start, Meddling(false, {}));
  }

  lemma PathGoesOn(start: Local, moves: seq<Move>, l: Local, a: Answer)
    requires OnPath(start, moves, l) && !EdgePlace(l.at) && CanAnswer(l, a)
    ensures OnPath(start, moves + [Move(l, a)], DoBody(l, a))
    ensures AnswersOf(moves + [Move(l, a)]) == AnswersOf(moves) + [a]
  {
    var meddlings, was, pending :| Path(start, moves, meddlings, was) && l == Meddle(was, pending);
    PathAppend(l, a, start, moves, meddlings, was, pending);
    MeddleNothing(DoBody(l, a));
  }

  lemma PathStays(start: Local, moves: seq<Move>, l: Local, m: Meddling)
    requires OnPath(start, moves, l)
    ensures OnPath(start, moves, Meddle(l, m))
  {
    var meddlings, was, pending :| Path(start, moves, meddlings, was) && l == Meddle(was, pending);
    MeddleTwice(was, pending, m);
  }

  /** A step of the worker inside the job function. */
  lemma BodyStage(start: Local, moves: seq<Move>, s: State, a: Answer)
    requires CanWork(s, a) && !EdgePlace(s.worker.at) && Stage(start, moves, s, s.worker.job)
    requires start.v == LocalOf(s).v
    ensures Stage(start, moves + [Move(LocalOf(s), a)], DoWork(s, a), s.worker.job)
    ensures AnswersOf(moves + [Move(LocalOf(s), a)]) == AnswersOf(moves) + [a]
  {
    WorkIsBody(s, a);
    BodyFrame(LocalOf(s), a);
    PathGoesOn(start, moves, LocalOf(s), a);
  }

  /** At the end of the path the job has its outcome. */
  lemma PathEnds(start: Local, moves: seq<Move>, l: Local)
    requires OnPath(start, moves, l) && Begins(start) && EdgePlace(l.at)
    ensures l.at == if NoneFatal(moves) then Finish else Failing
    ensures NoneFatal(moves) ==> Outcome(start, moves, l.vm, l.job)
    ensures RowLeft(start, moves, l.vm)
  {
    var meddlings, was, pending :| Path(start, moves, meddlings, was) && l == Meddle(was, pending);
    JobEnds(start, moves, meddlings, was);
  }

  lemma EdgeStage(start: Local, moves: seq<Move>, s: State, a: Answer)
    requires CanWork(s, a) && (s.worker.at.Finish? || s.worker.at.Failing?)
    requires Begins(start) && Stage(start, moves, s, s.worker.job)
    ensures Stage(start, moves, DoWork(s, a), s.worker.job)
  {
    PathEnds(start, moves, LocalOf(s));
  }

  lemma SpawnStage(start: Local, moves: seq<Move>, s: State, a: Answer)
    requires CanWork(s, a) && (s.worker.at.Spawn? || s.worker.at.PutSpawned?)
    requires Stage(start, moves, s, s.worker.job)
    ensures Stage(start, moves, DoWork(s, a), s.worker.job)
  {
  }

  /** The check that the worker is about to enqueue is touched by no one. */
  lemma CheckStays(s: State, step: Step, v: VmRow)
    requires Tickets(s) && s.worker.Busy? && s.worker.at.PutSpawned? && OfOthers(step) && Enabled(s, step)
    requires IsCheckOf(s, s.worker.at.check, v)
    ensures IsCheckOf(Apply(s, step), s.worker.at.check, v)
  {
    assert WorkerTicket(s.worker) == Some(s.worker.at.check);
  }

  lemma OthersStage(start: Local, moves: seq<Move>, s: State, step: Step)
    requires Inv(s) && s.worker.Busy? && !s.worker.at.Loaded? && OfOthers(step) && Enabled(s, step)
    requires Stage(start, moves, s, s.worker.job)
    ensures Stage(start, moves, Apply(s, step), s.worker.job)
  {
    OthersOnlyMeddle(s, step);
    var l := LocalOf(s);
    if s.worker.at.PutSpawned? { CheckStays(s, step, start.v); }
    if !s.worker.at.Spawn? && !s.worker.at.PutSpawned? { PathStays(start, moves, l, MeddlingOf(s, step)); }
    assert LocalOf(Apply(s, step)).vm == l.vm || LocalOf(Apply(s, step)).vm == l.vm.(ssh := SshPending);
  }

  /** The worker is inside a job function. */
  predicate Inside(s: State) {
    s.worker.Busy? && !EdgePlace(s.worker.at)
  }

  lemma WorkStage(start: Local, moves: seq<Move>, s: State, a: Answer) returns (moves': seq<Move>)
    requires CanWork(s, a) && !s.worker.at.Loaded? && (!EdgePlace(s.worker.at) ==> start.v == LocalOf(s).v)
    requires Begins(start) && Stage(start, moves, s, s.worker.job)
    ensures Stage(start, moves', DoWork(s, a), s.worker.job)
    ensures AnswersOf(moves') == AnswersOf(moves) + if Inside(s) then [a] else []
    ensures Inside(DoWork(s, a)) ==> Inside(s)
  {
    moves' := moves;
    assert AnswersOf(moves) + [] == AnswersOf(moves);
    if s.worker.at.Spawn? || s.worker.at.PutSpawned? {
      SpawnStage(start, moves, s, a);
    } else if s.worker.at.Finish? || s.worker.at.Failing? {
      EdgeStage(start, moves, s, a);
    } else {
      BodyStage(start, moves, s, a);
      moves' := moves + [Move(LocalOf(s), a)];
    }
  }

  /** One step of a run while the worker has a job under way. */
  lemma StageStep(start: Local, moves: seq<Move>, s: State, step: Step) returns (moves': seq<Move>)
    requires Inv(s) && s.worker.Busy? && !s.worker.at.Loaded? && Enabled(s, step) && !step.Crash?
    requires Begins(start) && Stage(start, moves, s, s.worker.job)
    ensures Stage(start, moves', Apply(s, step), s.worker.job)
    ensures AnswersOf(moves') == AnswersOf(moves) + if step.Work? && Inside(s) then [step.answer] else []
    ensures Inside(Apply(s, step)) ==> Inside(s)
  {
    if step.Work? {
      moves' := WorkStage(start, moves, s, step.answer);
    } else {
      moves' := moves;
      assert AnswersOf(moves) + [] == AnswersOf(moves);
      OthersStage(start, moves, s, step);
      OthersOnlyMeddle(s, step);
    }
  }

  /** The job that the worker has loaded, as its rows stand when it is committed as running. */
  function StartOf(s: State): Local
    requires WorkerOk(s) && s.worker.Busy?
  {
    LocalOf(s).(job := LocalOf(s).job.(status := JobRunning), at := Begin)
  }

  /** The answers of a job function so far are the first that the worker got, after the one
      with which the job was begun; while it is inside, they are all of them. */
  predicate Answered(moves: seq<Move>, steps: seq<Step>, inside: bool) {
    && [Ok] + AnswersOf(moves) <= AnswersIn(steps)
    && (inside ==> [Ok] + AnswersOf(moves) == AnswersIn(steps))
  }

  lemma AnsweredFirst()
    ensures Answered([], [Work(Ok)], true)
  {
    assert [Work(Ok)][..0] == [];
    assert AnswersIn([Work(Ok)]) == AnswersIn([Work(Ok)][..0]) + [Ok];
  }

  lemma AnsweredNext(moves: seq<Move>, moves': seq<Move>, steps: seq<Step>, step: Step, was: bool, inside: bool)
    requires Answered(moves, steps, was)
    requires AnswersOf(moves') == AnswersOf(moves) + if step.Work? && was then [step.answer] else []
    requires inside ==> was
    ensures Answered(moves', steps + [step], inside)
  {
    assert (steps + [step])[..|steps|] == steps;
  }

  lemma {:induction false} JobStages(run: seq<State>, steps: seq<Step>, n: nat) returns (moves: seq<Move>)
    requires JobRun(run, steps) && Inv(run[0]) && forall i :: 0 <= i < |steps| ==> steps[i] != Crash
    requires 0 < n <= |steps|
    ensures Inv(run[n]) && Stage(StartOf(run[0]), moves, run[n], run[0].worker.job)
    ensures Answered(moves, steps[..n], Inside(run[n]))
  {
    FollowsKeepsInv(run, steps, n);
    if n == 1 {
      moves := [];
      FirstStage(run, steps);
    } else {
      var before := JobStages(run, steps, n - 1);
      StartBegins(run[0]);
      moves := NextStage(StartOf(run[0]), before, run, steps, n - 1, n);
    }
  }

  lemma StartBegins(s: State)
    requires Inv(s) && s.worker.Busy? && s.worker.at.Loaded?
    ensures Begins(StartOf(s))
  {
    LoadedBegins(s);
  }

  lemma NextStage(start: Local, before: seq<Move>, run: seq<State>, steps: seq<Step>, m: nat, n: nat)
      returns (moves: seq<Move>)
    requires |run| == |steps| + 1 && Follows(run, steps) && n == m + 1 && n <= |steps| && steps[m] != Crash
    requires Inv(run[m]) && run[m].worker.Busy? && !run[m].worker.at.Loaded?
    requires Begins(start) && Stage(start, before, run[m], run[m].worker.job)
    requires Answered(before, steps[..m], Inside(run[m]))
    ensures Stage(start, moves, run[n], run[m].worker.job) && Answered(moves, steps[..n], Inside(run[n]))
  {
    assert Enabled(run[m], steps[m]) && run[m + 1] == Apply(run[m], steps[m]);
    moves := StageStep(start, before, run[m], steps[m]);
    assert steps[..n] == steps[..m] + [steps[m]];
    AnsweredNext(before, moves, steps[..m], steps[m], Inside(run[m]), Inside(run[n]));
  }

  lemma FirstStage(run: seq<State>, steps: seq<Step>)
    requires JobRun(run, steps) && Inv(run[0])
    ensures Stage(StartOf(run[0]), [], run[1], run[0].worker.job) && Answered([], steps[..1], Inside(run[1]))
  {
    LoadedBegins(run[0]);
    assert run[0 + 1] == Apply(run[0], steps[0]);
    assert steps[..1] == [Work(Ok)];
    AnsweredFirst();
  }

  /** What one job does, whatever handlers and Proxmox do meanwhile. The answers the worker
      got decide it: the job ends as failed if one of them was fatal, and then its VM shows
      error; otherwise it ends as success, has made all its calls in order, and its row holds
      what they answered. After a create, reinstall, start or reboot that succeeds, an SSH
      check of the VM is the last in the queue. */
  lemma JobRunOutcome(run: seq<State>, steps: seq<Step>) returns (moves: seq<Move>)
    requires JobRun(run, steps) && Reachable(run[0]) && forall i :: 0 <= i < |steps| ==> steps[i] != Crash
    ensures WorkerOk(run[0]) && Ended(StartOf(run[0]), moves, run[|steps|], run[0].worker.job)
    ensures NoneFatal(moves) && IsFollowedByCheck(StartOf(run[0]).job.kind) ==>
      var s := run[|steps|];
      |s.queue| > 0 && IsCheckOf(s, s.queue[|s.queue| - 1], StartOf(run[0]).v)
    ensures [Ok] + AnswersOf(moves) <= AnswersIn(steps)
  {
    ReachableInv(run[0]);
    moves := JobStages(run, steps, |steps|);
    assert steps[..|steps|] == steps;
  }

  lemma {:induction false} AnswersAreSteps(steps: seq<Step>, a: Answer)
    requires a in AnswersIn(steps)
    ensures Work(a) in steps
  {
    var n := |steps| - 1;
    if steps[n] != Work(a) {
      AnswersAreSteps(steps[..n], a);
    }
  }

  /** A job that met no failure at all succeeds; a delete then has its row deleted, whether
      its guest was there or already gone. */
  lemma CleanJobSucceeds(run: seq<State>, steps: seq<Step>)
    requires JobRun(run, steps) && Reachable(run[0])
    requires forall step :: step in steps ==> step != Crash && (step.Work? ==> NoFailure(step.answer))
    ensures WorkerOk(run[0]) && run[0].worker.job < |run[|steps|].jobs| && StartOf(run[0]).v < |run[|steps|].vms|
    ensures run[|steps|].jobs[run[0].worker.job].status == JobSuccess
    ensures StartOf(run[0]).job.kind == DeleteVm ==>
      var vm := run[|steps|].vms[StartOf(run[0]).v];
      vm.deleted && vm.status == Deleted
  {
    var moves := JobRunOutcome(run, steps);
    NoFailureInSteps(moves, steps);
    NoFailureIsNotFatal(moves);
  }

  lemma NoFailureInSteps(moves: seq<Move>, steps: seq<Step>)
    requires [Ok] + AnswersOf(moves) <= AnswersIn(steps)
    requires forall step :: step in steps && step.Work? ==> NoFailure(step.answer)
    ensures forall i :: 0 <= i < |moves| ==> NoFailure(moves[i].answer)
  {
    forall i | 0 <= i < |moves| ensures NoFailure(moves[i].answer) {
      assert AnswersIn(steps)[i + 1] == ([Ok] + AnswersOf(moves))[i + 1] == moves[i].answer;
      AnswersAreSteps(steps, moves[i].answer);
    }
  }
}
