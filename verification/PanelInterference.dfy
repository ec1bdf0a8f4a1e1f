/** What the rest of the system can do to the rows a job function works on, while that job
    function waits. */
module PanelInterference {
  import opened Wrappers
  import opened Entities
  import opened Panel
  import opened PanelFrames
  import opened PanelTickets
  import opened PanelInvariant

  /** An API re-check may reset ssh_status, and guests may vanish. */
  datatype Meddling = Meddling(reset: bool, gone: set<Vmid>)

  function Meddle(l: Local, m: Meddling): Local {
    l.(vm := if m.reset then l.vm.(ssh := SshPending) else l.vm,
       guests := l.guests - m.gone, doomed := l.doomed - m.gone)
  }

  /** The part of a step that the worker's job function can notice. */
  ghost function MeddlingOf(s: State, step: Step): Meddling
    requires WorkerOk(s) && s.worker.Busy? && Enabled(s, step)
  {
    match step
    case Vanish(g) => Meddling(false, {g})
    case Advance(i) =>
      var h := s.handlers[i];
      Meddling(h.SshGuarded? && h.vm == s.jobs[s.worker.job].vm && h.seen != SshPending, {})
    case _ => Meddling(false, {})
  }

  predicate OfOthers(step: Step) {
    !step.Work? && !step.Take? && !step.Crash? && !step.MarkOrphans?
  }

  lemma AdvanceOnlyMeddles(s: State, i: nat)
    requires Tickets(s) && s.worker.Busy? && !s.worker.at.Loaded? && CanAdvance(s, i)
    ensures var s' := AdvanceHandler(s, i);
      && WorkerOk(s') && s'.worker == s.worker
      && LocalOf(s') == Meddle(LocalOf(s), MeddlingOf(s, Advance(i)))
  {
    var l := LocalOf(s);
    assert l.guests - {} == l.guests && l.doomed - {} == l.doomed;
  }

  lemma StartupOnlyMeddles(s: State)
    requires Tickets(s) && s.worker.Busy? && !s.worker.at.Loaded? && s.phase.Requeued?
    ensures var s' := s.(phase := Serving, jobs := FailListed(s.jobs, s.phase.unresumable));
      && WorkerOk(s') && LocalOf(s') == LocalOf(s)
  {
    assert !IsQueued(s.jobs, s.worker.job);
  }

  /** However handlers, startup and Proxmox interleave with a running job, what its job
      function works on changes by meddling only. */
  lemma OthersOnlyMeddle(s: State, step: Step)
    requires Inv(s) && s.worker.Busy? && !s.worker.at.Loaded? && OfOthers(step) && Enabled(s, step)
    ensures var s' := Apply(s, step);
      && WorkerOk(s') && s'.worker == s.worker
      && LocalOf(s') == Meddle(LocalOf(s), MeddlingOf(s, step))
  {
    if step.Advance? {
      AdvanceOnlyMeddles(s, step.handler);
    } else {
      if step.CommitRequeue? { StartupOnlyMeddles(s); }
      var l := LocalOf(s);
      assert l.guests - {} == l.guests && l.doomed - {} == l.doomed;
    }
  }

  /** A step of the worker inside a job function is that function's own step. */
  lemma WorkIsBody(s: State, a: Answer)
    requires CanWork(s, a) && !EdgePlace(s.worker.at)
    ensures WorkerOk(DoWork(s, a)) && DoWork(s, a).worker.Busy?
    ensures LocalOf(DoWork(s, a)) == DoBody(LocalOf(s), a)
  {
    BodyFrame(LocalOf(s), a);
  }

  /** What dispatch can rely on when it has read a job's rows. */
  lemma LoadedJobIsUntouched(s: State)
    requires Inv(s) && s.worker.Busy? && s.worker.at.Loaded?
    ensures var l := LocalOf(s);
      && l.job.status == JobQueued && l.job.target == None
      && (l.job.kind == CreateVm ==> l.vm.vmid == None)
  {
    assert WorkerTicket(s.worker) == Some(s.worker.job);
  }
}
