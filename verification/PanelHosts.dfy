/** Hostnames of live VMs are unique: the re-check under the create lock decides. */
module PanelHosts {
  import opened Wrappers
  import opened Entities
  import opened Panel
  import opened PanelFrames
  import opened PanelTickets
  import opened PanelRowsKept

  ghost predicate LockOk(lock: Option<nat>, handlers: seq<Handler>) {
    && (lock.Some? ==> lock.value < |handlers|)
    && (forall i: nat :: i < |handlers| ==> (HoldsLock(handlers[i]) <==> lock == Some(i)))
  }

  /** The handlers' hostnames were lower-cased by validation, and one past the re-check
      is still free. */
  ghost predicate RecheckOk(vms: seq<Vm>, handlers: seq<Handler>) {
    forall i :: 0 <= i < |handlers| ==>
      match handlers[i]
      case AwaitLock(host, _) => Lower(host) == host
      case Locked(host, _) => Lower(host) == host
      case Rechecked(host, _) => Lower(host) == host && !HostTaken(vms, host)
      case _ => true
  }

  ghost predicate UniqueHosts(vms: seq<Vm>) {
    forall u, v :: 0 <= u < v < |vms| && !vms[u].deleted && !vms[v].deleted ==>
      Lower(vms[u].hostname) != Lower(vms[v].hostname)
  }

  /** Recorded hostnames were lower-cased too. */
  ghost predicate LowerHosts(vms: seq<Vm>) {
    forall v :: 0 <= v < |vms| ==> Lower(vms[v].hostname) == vms[v].hostname
  }

  ghost predicate Hosts(s: State) {
    LockOk(s.lock, s.handlers) && RecheckOk(s.vms, s.handlers) && UniqueHosts(s.vms) && LowerHosts(s.vms)
  }

  /** A live VM has this hostname, in whatever case. */
  ghost predicate TakenIgnoringCase(vms: seq<Vm>, host: string) {
    exists v :: 0 <= v < |vms| && !vms[v].deleted && SameIgnoringCase(vms[v].hostname, host)
  }

  /** The look-up by the lower-cased name finds it. */
  lemma TakenIff(vms: seq<Vm>, host: string)
    ensures HostTaken(vms, Lower(host)) <==> TakenIgnoringCase(vms, host)
  {
    if HostTaken(vms, Lower(host)) {
      var v :| 0 <= v < |vms| && !vms[v].deleted && Lower(vms[v].hostname) == Lower(host);
      LowerIgnoresCase(vms[v].hostname, host);
    }
    if TakenIgnoringCase(vms, host) {
      var v :| 0 <= v < |vms| && !vms[v].deleted && SameIgnoringCase(vms[v].hostname, host);
      LowerIgnoresCase(vms[v].hostname, host);
    }
  }

  /** No row changes its hostname or comes back from deletion. */
  ghost predicate HostsFade(vms: seq<Vm>, vms': seq<Vm>) {
    && |vms'| == |vms|
    && forall v :: 0 <= v < |vms| ==>
         vms'[v].hostname == vms[v].hostname && (vms[v].deleted ==> vms'[v].deleted)
  }

  lemma LowerTwice(s: string)
    ensures Lower(Lower(s)) == Lower(s)
  {
  }

  lemma FadeKeepsHosts(vms: seq<Vm>, vms': seq<Vm>, handlers: seq<Handler>)
    requires HostsFade(vms, vms') && RecheckOk(vms, handlers) && UniqueHosts(vms) && LowerHosts(vms)
    ensures RecheckOk(vms', handlers) && UniqueHosts(vms') && LowerHosts(vms')
  {
    forall host | HostTaken(vms', host) ensures HostTaken(vms, host) {
      var v :| 0 <= v < |vms'| && !vms'[v].deleted && Lower(vms'[v].hostname) == host;
      assert !vms[v].deleted && Lower(vms[v].hostname) == host;
    }
  }

  /** The insert under the lock: its hostname was free, and no other handler is past the
      re-check. */
  lemma InsertKeepsHosts(s: State, i: nat)
    requires Hosts(s) && CanAdvance(s, i) && s.handlers[i].Rechecked?
    ensures Hosts(AdvanceHandler(s, i))
  {
    var s' := AdvanceHandler(s, i);
    forall u | 0 <= u < |s.vms| && !s.vms[u].deleted
      ensures Lower(s.vms[u].hostname) != Lower(s'.vms[|s.vms|].hostname)
    {
      if Lower(s.vms[u].hostname) == s.handlers[i].host { assert HostTaken(s.vms, s.handlers[i].host); }
    }
    assert !HoldsLock(s'.handlers[i]) || s'.handlers[i].Inserted?;
  }

  lemma AdvanceKeepsHosts(s: State, i: nat)
    requires Hosts(s) && CanAdvance(s, i)
    ensures Hosts(AdvanceHandler(s, i))
  {
    if s.handlers[i].Rechecked? {
      InsertKeepsHosts(s, i);
    } else {
      FadeKeepsHosts(s.vms, AdvanceHandler(s, i).vms, s.handlers);
    }
  }

  lemma StepKeepsHosts(s: State, step: Step)
    requires Tickets(s) && Hosts(s) && Enabled(s, step)
    ensures Hosts(Apply(s, step))
  {
    match step
    case Advance(i) => AdvanceKeepsHosts(s, i);
    case RequestCreate(host, _, _) => LowerTwice(host);
    case Work(a) =>
      if !EdgePlace(s.worker.at) { BodyFrame(LocalOf(s), a); }
      FadeKeepsHosts(s.vms, DoWork(s, a).vms, s.handlers);
    case MarkOrphans =>
      AdoptedRows(s.vms, s.jobs, |s.jobs|);
      FadeKeepsHosts(s.vms, DoMark(s).vms, s.handlers);
    case _ =>
  }
}
