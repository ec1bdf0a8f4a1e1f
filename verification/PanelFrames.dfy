/** What the worker's steps leave alone. These facts spare the invariant proofs from
    looking at every place of the worker. */
module PanelFrames {
  import opened Panel

  /** The places at which the current job is committed as running. */
  predicate InBody(at: Place) {
    !at.Loaded? && !at.Spawn? && !at.PutSpawned?
  }

  /** What a step inside a job function keeps: the job but for its target, the hostname,
      deletion, and a disk that never shrinks. */
  predicate Framed(l: Local, l': Local) {
    && l'.v == l.v
    && l'.job == l.job.(target := l'.job.target)
    && InBody(l'.at)
    && l'.vm.hostname == l.vm.hostname
    && (l.vm.deleted ==> l'.vm.deleted)
    && l.vm.diskGb <= l'.vm.diskGb
  }

  lemma SetupFrame(l: Local, a: Answer)
    requires SetupPlace(l.at) && CanAnswer(l, a)
    ensures Framed(l, DoSetup(l, a))
  {
  }

  lemma DestroyFrame(l: Local, a: Answer)
    requires DestroyPlace(l.at) && CanAnswer(l, a)
    ensures Framed(l, DoDestroy(l, a))
  {
  }

  lemma BodyFrame(l: Local, a: Answer)
    requires !EdgePlace(l.at) && CanAnswer(l, a)
    ensures Framed(l, DoBody(l, a))
  {
    if DestroyPlace(l.at) { DestroyFrame(l, a); }
    else if SetupPlace(l.at) { SetupFrame(l, a); }
  }
}
