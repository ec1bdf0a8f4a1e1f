/** A websocket handler of a terminal session as the source writes it
    (backend/app/services/terminal.py): its waits are filled with any steps of the other
    handlers of the same session. */
module TerminalSocket {
  import opened Entities
  import opened Terminal
  import opened Wrappers

  /** Steps of the other handlers. */
  predicate Elsewhere(me: nat, step: Step) {
    step.Arrive? || step.i != me
  }

  ghost predicate RunsTo(run: seq<State>, steps: seq<Step>, s: State, s': State) {
    && |run| == |steps| + 1 && run[0] == s && run[|steps|] == s'
    && forall i :: 0 <= i < |steps| ==> Possible(run[i], steps[i]) && run[i + 1] == Next(run[i], steps[i])
  }

  ghost predicate Reaches(s: State, s': State) {
    exists run, steps :: RunsTo(run, steps, s, s')
  }

  ghost predicate Others(me: nat, s: State, s': State) {
    exists run, steps :: RunsTo(run, steps, s, s') && forall i :: 0 <= i < |steps| ==> Elsewhere(me, steps[i])
  }

  ghost predicate Fair(me: nat, meanwhile: (nat, State) -> State) {
    forall n: nat, s: State :: Others(me, s, meanwhile(n, s))
  }

  lemma ReachesItself(s: State)
    ensures Reaches(s, s)
  {
    var steps: seq<Step> := [];
    assert RunsTo([s], steps, s, s);
  }

  lemma ReachesNext(s: State, s1: State, step: Step)
    requires Reaches(s, s1) && Possible(s1, step)
    ensures Reaches(s, Next(s1, step))
  {
    var run, steps :| RunsTo(run, steps, s, s1);
    var run', steps' := run + [Next(s1, step)], steps + [step];
    forall i | 0 <= i < |steps'| ensures Possible(run'[i], steps'[i]) && run'[i + 1] == Next(run'[i], steps'[i]) {
      assert run'[i] == run[i];
      if i < |steps| { assert run'[i + 1] == run[i + 1] && steps'[i] == steps[i]; }
    }
    assert RunsTo(run', steps', s, Next(s1, step));
  }

  /** What a waiting handler can rely on: its own place, the deadline, and that a status
      once written stays in the log. */
  predicate Undisturbed(me: nat, s: State, s': State) {
    me < |s.racers| <= |s'.racers| && s'.racers[me] == s.racers[me] && s'.expires == s.expires && s.log <= s'.log
  }

  lemma {:induction false} StepsElsewhere(me: nat, start: State, run: seq<State>, steps: seq<Step>, n: nat)
    requires |run| == |steps| + 1 && RunsTo(run, steps, run[0], run[|steps|]) && n <= |steps|
    requires forall i :: 0 <= i < |steps| ==> Elsewhere(me, steps[i])
    requires me < |run[0].racers| && RaceOk(run[0]) && Reaches(start, run[0])
    ensures Undisturbed(me, run[0], run[n]) && RaceOk(run[n]) && Reaches(start, run[n])
  {
    if n > 0 {
      StepsElsewhere(me, start, run, steps, n - 1);
      assert Possible(run[n - 1], steps[n - 1]) && run[n - 1 + 1] == Next(run[n - 1], steps[n - 1]);
      NextKeeps(run[n - 1], steps[n - 1]);
      ReachesNext(start, run[n - 1], steps[n - 1]);
    }
  }

  /** A VM row that is there, live, running, SSH-ready and addressed. */
  predicate MayAttach(vm: Option<Vm>) {
    && vm != None && !vm.value.deleted && vm.value.status == Running && vm.value.ssh == SshReady
    && vm.value.ip != None && vm.value.ip != Some("")
  }

  lemma StaysClosed(s: State, s': State)
    requires RaceOk(s) && RaceOk(s') && s.log <= s'.log
    ensures !Open(s.status) ==> !Open(s'.status)
  {
    assert s'.log[|s.log| - 1] == s.status;
  }

  /** One handler on the shared session row s; me is its place among the handlers. */
  class Websocket {
    const me: nat
    const meanwhile: (nat, State) -> State
    var s: State
    var waits: nat
    ghost var start: State

    ghost predicate Valid()
      reads this
    {
      Fair(me, meanwhile) && RaceOk(s) && Reaches(start, s)
    }

    constructor (s: State, meanwhile: (nat, State) -> State)
      requires RaceOk(s) && Fair(|s.racers|, meanwhile)
      ensures Valid() && this.s == s && start == s && me == |s.racers|
    {
      me, this.meanwhile := |s.racers|, meanwhile;
      this.s, waits, start := s, 0, s;
      ReachesItself(s);
    }

    /** An await: any steps of the other handlers. */
    method Wait()
      requires Valid() && me < |s.racers|
      modifies this`s, this`waits
      ensures Valid() && Undisturbed(me, old(s), s)
    {
      ghost var before := s;
      s := meanwhile(waits, s);
      waits := waits + 1;
      ghost var run, steps :| RunsTo(run, steps, before, s) && forall i :: 0 <= i < |steps| ==> Elsewhere(me, steps[i]);
      StepsElsewhere(me, start, run, steps, |steps|);
    }

    /** A step of this handler. */
    method Do(next: State, ghost step: Step)
      requires Valid() && Possible(s, step) && next == Next(s, step)
      modifies this`s
      ensures Valid() && s == next && old(s).expires == s.expires && old(s).log <= s.log
    {
      NextKeeps(s, step);
      ReachesNext(start, s, step);
      s := next;
    }

    /** validate_and_claim_session, for a session that exists; now and vm are what it reads
        when it gets to the clock and to the VM row, looked and updating are the statuses the
        row had at the first check and at the conditional update. The session is claimed
        exactly when it was open both times, unexpired, and of a VM that is live, running,
        SSH-ready and addressed; found overdue, it is marked expired. */
    method ValidateAndClaim(now: int, vm: Option<Vm>)
        returns (claimed: bool, ghost looked: SessionStatus, ghost updating: SessionStatus)
      requires Valid() && me == |s.racers|
      modifies this`s, this`waits
      ensures Valid() && s.expires == old(s).expires && old(s).log <= s.log
      ensures looked in s.log && updating in s.log
      ensures claimed <==>
        && (looked == Pending || looked == Connected) && now < s.expires && MayAttach(vm)
        && (updating == Pending || updating == Connected)
      ensures claimed ==> s.status == Connected && me < |s.racers| && s.racers[me].Attached?
      ensures (looked == Pending || looked == Connected) && s.expires <= now ==> s.status == Expired
      ensures !Open(old(s).status) ==> !claimed && !Open(looked)
    {
      Do(s.(racers := s.racers + [Arrived]), Arrive);
      Wait();
      StaysClosed(old(s), s);
      looked, updating := s.status, s.status;
      assert s.log[|s.log| - 1] == s.status;
      if s.status != Pending && s.status != Connected {
        Do(s.(racers := s.racers[me := Gone]), ReadSession(me, now));
        return false, looked, updating;
      }
      if s.expires <= now {
        Do(s.(racers := s.racers[me := Overdue]), ReadSession(me, now));
        Wait();
        MarkExpired();
        return false, looked, updating;
      }
      Do(s.(racers := s.racers[me := Checking]), ReadSession(me, now));
      claimed, updating := CheckAndClaim(vm);
    }

    /** validate_and_claim_session from the check of the VM on */
    method CheckAndClaim(vm: Option<Vm>) returns (claimed: bool, ghost updating: SessionStatus)
      requires Valid() && me < |s.racers| && s.racers[me].Checking?
      modifies this`s, this`waits
      ensures Valid() && s.expires == old(s).expires && old(s).log <= s.log
      ensures updating in s.log
      ensures claimed <==> MayAttach(vm) && (updating == Pending || updating == Connected)
      ensures claimed ==> s.status == Connected && me < |s.racers| && s.racers[me].Attached?
    {
      Wait();
      updating := s.status;
      assert s.log[|s.log| - 1] == s.status;
      if vm.None? || !Connectable(vm.value) {
        Do(s.(racers := s.racers[me := Gone]), ReadVm(me, vm));
        return false, updating;
      }
      Do(s.(racers := s.racers[me := Claiming(s.expires, vm.value)]), ReadVm(me, vm));
      Wait();
      updating := s.status;
      assert s.log[|s.log| - 1] == s.status;
      claimed := UpdateIfOpen();
    }

    method MarkExpired()
      requires Valid() && me < |s.racers| && s.racers[me].Overdue?
      modifies this`s
      ensures Valid() && s.status == Expired && s.expires == old(s).expires && old(s).log <= s.log
    {
      Do(s.(racers := s.racers[me := Gone], status := Expired, log := s.log + [Expired]), WriteExpired(me));
    }

    /** The conditional update; claimed says that it matched one row. */
    method UpdateIfOpen() returns (claimed: bool)
      requires Valid() && me < |s.racers| && s.racers[me].Claiming?
      modifies this`s
      ensures Valid() && s.expires == old(s).expires && old(s).log <= s.log
      ensures claimed <==> Open(old(s).status)
      ensures claimed ==> s.status == Connected && me < |s.racers| && s.racers[me].Attached?
      ensures !claimed ==> s.status == old(s).status
    {
      if s.status == Pending || s.status == Connected {
        var seen := s.racers[me];
        Do(s.(racers := s.racers[me := Attached(seen.expires, seen.vm)], status := Connected, log := s.log + [Connected]),
           Claim(me));
        return true;
      }
      Do(s.(racers := s.racers[me := Gone]), Claim(me));
      return false;
    }

    /** terminal_websocket: a session that was served is closed, and so not open ever
        after. */
    method Serve(now: int, vm: Option<Vm>) returns (served: bool)
      requires Valid() && me == |s.racers|
      modifies this`s, this`waits
      ensures Valid()
      ensures served ==> s.status == Closed && now < s.expires && MayAttach(vm)
      ensures !Open(old(s).status) ==> !served && !Open(s.status)
    {
      var claimed, _, _ := ValidateAndClaim(now, vm);
      StaysClosed(old(s), s);
      if !claimed {
        return false;
      }
      Wait();
      Do(s.(racers := s.racers[me := Gone], status := Closed, log := s.log + [Closed]), Close(me));
      return true;
    }
  }
}
