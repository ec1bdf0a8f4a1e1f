/** Paths of a job function: its moves, each a wait and its answer, with the meddling of the
    rest of the system before it; and that the paths are what runs of the step system do
    inside one job function, both ways. */
module PanelPaths {
  import opened Panel
  import opened PanelInterference
  import opened PanelInvariant

  /** One wait: what the job function worked on when it ended, and the answer. */
  datatype Move = Move(before: Local, answer: Answer)

  /** The moves lead from start to next by steps of the step system, with meddling before
      each of them. */
  ghost predicate Path(start: Local, moves: seq<Move>, meddlings: seq<Meddling>, next: Local) {
    |meddlings| == |moves| &&
    if moves == [] then next == start else
    var n := |moves| - 1;
    var m := moves[n];
    && !EdgePlace(m.before.at) && CanAnswer(m.before, m.answer)
    && next == DoBody(m.before, m.answer)
    && exists was: Local ::
         m.before == Meddle(was, meddlings[n]) && Path(start, moves[..n], meddlings[..n], was)
  }

  lemma Extend(start: Local, moves: seq<Move>, meddlings: seq<Meddling>, was: Local, m: Meddling, a: Answer)
    requires Path(start, moves, meddlings, was)
    requires !EdgePlace(was.at) && CanAnswer(Meddle(was, m), a)
    ensures var l := Meddle(was, m);
      Path(start, moves + [Move(l, a)], meddlings + [m], DoBody(l, a))
  {
    var l := Meddle(was, m);
    var moves', meddlings' := moves + [Move(l, a)], meddlings + [m];
    assert moves'[..|moves|] == moves && meddlings'[..|moves|] == meddlings;
    assert l == Meddle(was, meddlings'[|moves|]) && Path(start, moves'[..|moves|], meddlings'[..|moves|], was);
  }

  /** A path that has moved is a shorter path and one more move. */
  lemma LastMove(start: Local, moves: seq<Move>, meddlings: seq<Meddling>, next: Local) returns (was: Local, m: Meddling)
    requires Path(start, moves, meddlings, next) && moves != []
    ensures |meddlings| == |moves|
    ensures var n := |moves| - 1;
      && moves == moves[..n] + [Move(Meddle(was, m), moves[n].answer)]
      && Path(start, moves[..n], meddlings[..n], was)
      && !EdgePlace(was.at) && CanAnswer(Meddle(was, m), moves[n].answer)
      && next == DoBody(Meddle(was, m), moves[n].answer)
  {
    var n := |moves| - 1;
    was :| moves[n].before == Meddle(was, meddlings[n]) && Path(start, moves[..n], meddlings[..n], was);
    m := meddlings[n];
  }

  /** The rest of the system meddles with what the worker works on. */
  ghost function Meddled(s: State, m: Meddling): State
    requires WorkerOk(s) && s.worker.Busy?
  {
    Put(s, Meddle(LocalOf(s), m))
  }

  /** run[i + 1] follows run[i] by meddling and one step of the worker. */
  ghost predicate Weaves(run: seq<State>, moves: seq<Move>, meddlings: seq<Meddling>) {
    && |run| == |moves| + 1 == |meddlings| + 1
    && forall i: nat, k: nat :: i < |moves| && k == i + 1 ==> Woven(run[i], meddlings[i], moves[i].answer, run[k])
  }

  ghost predicate Woven(s: State, m: Meddling, a: Answer, s': State) {
    && WorkerOk(s) && s.worker.Busy?
    && CanWork(Meddled(s, m), a)
    && s' == DoWork(Meddled(s, m), a)
  }

  lemma WeaveOne(run: seq<State>, moves: seq<Move>, meddlings: seq<Meddling>, s': State)
    requires |moves| > 0 && |meddlings| == |moves| == |run|
    requires Weaves(run, moves[..|moves| - 1], meddlings[..|moves| - 1])
    requires Woven(run[|moves| - 1], meddlings[|moves| - 1], moves[|moves| - 1].answer, s')
    ensures Weaves(run + [s'], moves, meddlings)
  {
    var n, all := |moves| - 1, run + [s'];
    forall i: nat, k: nat | i < |moves| && k == i + 1
      ensures Woven(all[i], meddlings[i], moves[i].answer, all[k])
    {
      if i < n {
        assert Woven(run[i], meddlings[..n][i], moves[..n][i].answer, run[k]);
      }
    }
  }

  lemma MeddledLocal(s: State, m: Meddling)
    requires WorkerOk(s) && s.worker.Busy?
    ensures WorkerOk(Meddled(s, m)) && Meddled(s, m).worker.Busy?
    ensures LocalOf(Meddled(s, m)) == Meddle(LocalOf(s), m) && Meddled(s, m).phase == s.phase
  {
  }

  /** What a job function does, from whatever state of the system its job was begun in, is
      done by worker steps of the step system, woven with the meddling of the others. */
  lemma {:induction false} PathIsRun(
      s: State, start: Local, moves: seq<Move>, meddlings: seq<Meddling>, next: Local)
      returns (run: seq<State>)
    requires WorkerOk(s) && s.worker.Busy? && s.phase != Down && LocalOf(s) == start
    requires Path(start, moves, meddlings, next)
    ensures Weaves(run, moves, meddlings) && run[0] == s
    ensures var last := run[|moves|];
      && WorkerOk(last) && last.worker.Busy? && last.phase == s.phase && LocalOf(last) == next
    decreases |moves|
  {
    run := [s];
    if moves != [] {
      var n := |moves| - 1;
      var was: Local :|
        moves[n].before == Meddle(was, meddlings[n]) && Path(start, moves[..n], meddlings[..n], was);
      var prefix := PathIsRun(s, start, moves[..n], meddlings[..n], was);
      MeddledLocal(prefix[n], meddlings[n]);
      var met := Meddled(prefix[n], meddlings[n]);
      WorkIsBody(met, moves[n].answer);
      WeaveOne(prefix, moves, meddlings, DoWork(met, moves[n].answer));
      run := prefix + [DoWork(met, moves[n].answer)];
    }
  }

  function Both(m: Meddling, m': Meddling): Meddling {
    Meddling(m.reset || m'.reset, m.gone + m'.gone)
  }

  lemma MeddleTwice(l: Local, m: Meddling, m': Meddling)
    ensures Meddle(Meddle(l, m), m') == Meddle(l, Both(m, m'))
  {
    assert (l.guests - m.gone) - m'.gone == l.guests - (m.gone + m'.gone);
    assert (l.doomed - m.gone) - m'.gone == l.doomed - (m.gone + m'.gone);
  }

  /** The answers that the worker got in these steps. */
  function AnswersIn(steps: seq<Step>): seq<Answer> {
    if steps == [] then []
    else
      var last := steps[|steps| - 1];
      AnswersIn(steps[..|steps| - 1]) + if last.Work? then [last.answer] else []
  }

  function AnswersOf(moves: seq<Move>): seq<Answer> {
    seq(|moves|, i requires 0 <= i < |moves| => moves[i].answer)
  }

  lemma PathAppend(
      l: Local, a: Answer, start: Local, moves: seq<Move>, meddlings: seq<Meddling>, was: Local, pending: Meddling)
    requires !EdgePlace(l.at) && CanAnswer(l, a)
    requires Path(start, moves, meddlings, was) && l == Meddle(was, pending)
    ensures Path(start, moves + [Move(l, a)], meddlings + [pending], DoBody(l, a))
    ensures AnswersOf(moves + [Move(l, a)]) == AnswersOf(moves) + [a]
  {
    Extend(start, moves, meddlings, was, pending, a);
  }

  lemma MeddleNothing(l: Local)
    ensures Meddle(l, Meddling(false, {})) == l
  {
    assert l.guests - {} == l.guests && l.doomed - {} == l.doomed;
  }

  function PlaceIn(s: State): Place {
    if s.worker.Busy? then s.worker.at else Loaded
  }

  /** And conversely: any stretch of a run of the step system in which the worker stays
      inside one job function is a path of that function, with the answers the worker got;
      pending is the meddling since its last move. */
  lemma {:induction false} RunIsPath(run: seq<State>, steps: seq<Step>, n: nat)
      returns (moves: seq<Move>, meddlings: seq<Meddling>, was: Local, pending: Meddling)
    requires |run| == |steps| + 1 && Follows(run, steps) && n <= |steps|
    requires Inv(run[0]) && run[0].worker.Busy?
    requires forall i :: 0 <= i < n ==> !EdgePlace(PlaceIn(run[i])) && (steps[i].Work? || OfOthers(steps[i]))
    ensures WorkerOk(run[n]) && run[n].worker.Busy?
    ensures Path(LocalOf(run[0]), moves, meddlings, was) && LocalOf(run[n]) == Meddle(was, pending)
    ensures AnswersOf(moves) == AnswersIn(steps[..n])
  {
    if n == 0 {
      moves, meddlings, was, pending := [], [], LocalOf(run[0]), Meddling(false, {});
      MeddleNothing(was);
    } else {
      moves, meddlings, was, pending := RunIsPath(run, steps, n - 1);
      FollowsKeepsInv(run, steps, n - 1);
      assert steps[..n][..n - 1] == steps[..n - 1];
      var s, step, start := run[n - 1], steps[n - 1], LocalOf(run[0]);
      if step.Work? {
        WorkIsBody(s, step.answer);
        PathAppend(LocalOf(s), step.answer, start, moves, meddlings, was, pending);
        MeddleNothing(DoBody(LocalOf(s), step.answer));
        moves, meddlings := moves + [Move(LocalOf(s), step.answer)], meddlings + [pending];
        was, pending := DoBody(LocalOf(s), step.answer), Meddling(false, {});
      } else {
        OthersOnlyMeddle(s, step);
        MeddleTwice(was, pending, MeddlingOf(s, step));
        pending := Both(pending, MeddlingOf(s, step));
      }
    }
  }
}
