/** Terminal sessions: websocket handlers racing on one session row
    (backend/app/services/terminal.py), which they claim by a conditional update. */
module Terminal {
  import opened Wrappers
  import opened Entities

  datatype SessionStatus = Pending | Connected | Closed | Expired

  /** The claimable statuses. */
  predicate Open(status: SessionStatus) {
    status == Pending || status == Connected
  }

  /** Where a websocket handler stands. */
  datatype Racer =
    | Arrived
    | Overdue                      // saw the session expired, about to write that
    | Checking                     // saw it open and in time, about to read the VM
    | Claiming(expires: int, vm: Vm)   // saw these, about to run the conditional update
    | Attached(expires: int, vm: Vm)   // the update matched; the terminal is open
    | Gone

  /** log keeps every status the row had, the latest last. */
  datatype State = State(status: SessionStatus, expires: int, racers: seq<Racer>, log: seq<SessionStatus>)

  /** A step of handler i, with the clock and the VM row as it reads them. */
  datatype Step =
    | Arrive
    | ReadSession(i: nat, now: int)
    | WriteExpired(i: nat)
    | ReadVm(i: nat, vm: Option<Vm>)
    | Claim(i: nat)
    | Close(i: nat)

  /** The VM checks of validate_and_claim_session. */
  predicate Connectable(vm: Vm) {
    !vm.deleted && vm.ip.Some? && vm.ip.value != "" && vm.status == Running && vm.ssh == SshReady
  }

  predicate Possible(s: State, step: Step) {
    match step
    case Arrive => true
    case ReadSession(i, _) => i < |s.racers| && s.racers[i].Arrived?
    case WriteExpired(i) => i < |s.racers| && s.racers[i].Overdue?
    case ReadVm(i, _) => i < |s.racers| && s.racers[i].Checking?
    case Claim(i) => i < |s.racers| && s.racers[i].Claiming?
    case Close(i) => i < |s.racers| && s.racers[i].Attached?
  }

  function Turn(s: State, i: nat, r: Racer): State
    requires i < |s.racers|
  {
    s.(racers := s.racers[i := r])
  }

  function Write(s: State, status: SessionStatus): State {
    s.(status := status, log := s.log + [status])
  }

  function Next(s: State, step: Step): State
    requires Possible(s, step)
  {
    match step
    case Arrive => s.(racers := s.racers + [Arrived])
    case ReadSession(i, now) =>
      if !Open(s.status) then Turn(s, i, Gone)
      else if s.expires <= now then Turn(s, i, Overdue)
      else Turn(s, i, Checking)
    case WriteExpired(i) => Write(Turn(s, i, Gone), Expired)
    case ReadVm(i, vm) =>
      if vm.None? || !Connectable(vm.value) then Turn(s, i, Gone) else Turn(s, i, Claiming(s.expires, vm.value))
    case Claim(i) =>
      if !Open(s.status) then Turn(s, i, Gone)
      else Write(Turn(s, i, Attached(s.racers[i].expires, s.racers[i].vm)), Connected)
    case Close(i) => Write(Turn(s, i, Gone), Closed)
  }

  /** create_terminal_session: a session asked for at time now, ttl being the configured
      number of seconds. */
  function NewSession(now: int, ttl: int): State {
    State(Pending, now + if ttl < 60 then 60 else ttl, [], [Pending])
  }

  ghost predicate IsRace(run: seq<State>, steps: seq<Step>) {
    && |run| == |steps| + 1
    && (exists now: int, ttl: int :: run[0] == NewSession(now, ttl))
    && forall i :: 0 <= i < |steps| ==> Possible(run[i], steps[i]) && run[i + 1] == Next(run[i], steps[i])
  }

  /** Once the status has left the open ones it stays away from them. */
  predicate NeverRevived(log: seq<SessionStatus>) {
    forall i, k :: 0 <= i < k < |log| && !Open(log[i]) ==> !Open(log[k])
  }

  predicate AttachedOk(r: Racer, expires: int) {
    r.Claiming? || r.Attached? ==> r.expires == expires && Connectable(r.vm)
  }

  predicate RaceOk(s: State) {
    && |s.log| > 0 && s.log[|s.log| - 1] == s.status
    && NeverRevived(s.log)
    && (forall i :: 0 <= i < |s.racers| ==> AttachedOk(s.racers[i], s.expires))
  }

  lemma NextKeeps(s: State, step: Step)
    requires RaceOk(s) && Possible(s, step)
    ensures RaceOk(Next(s, step)) && Next(s, step).expires == s.expires && s.log <= Next(s, step).log
  {
  }

  lemma {:induction false} RaceKeeps(run: seq<State>, steps: seq<Step>, n: nat)
    requires IsRace(run, steps) && n <= |steps|
    ensures RaceOk(run[n]) && run[n].expires == run[0].expires
  {
    if n > 0 {
      RaceKeeps(run, steps, n - 1);
      assert Possible(run[n - 1], steps[n - 1]) && run[n - 1 + 1] == Next(run[n - 1], steps[n - 1]);
      NextKeeps(run[n - 1], steps[n - 1]);
    }
  }

  lemma {:induction false} LogGrows(run: seq<State>, steps: seq<Step>, i: nat, k: nat)
    requires IsRace(run, steps) && i <= k <= |steps|
    ensures run[i].log <= run[k].log
  {
    if i < k {
      LogGrows(run, steps, i, k - 1);
      assert Possible(run[k - 1], steps[k - 1]) && run[k - 1 + 1] == Next(run[k - 1], steps[k - 1]);
    }
  }

  /** Sessions never revive: however many handlers race on one session, once it is closed
      or expired no later state has it pending or connected. */
  lemma SessionsNeverRevive(run: seq<State>, steps: seq<Step>, i: nat, k: nat)
    requires IsRace(run, steps) && i <= k <= |steps| && !Open(run[i].status)
    ensures !Open(run[k].status)
  {
    RaceKeeps(run, steps, i);
    RaceKeeps(run, steps, k);
    LogGrows(run, steps, i, k);
    var m := |run[i].log| - 1;
    assert run[k].log[m] == run[i].status;
  }

  /** What a handler's step towards its claim saw. */
  lemma {:induction false} ClaimsAreChecked(run: seq<State>, steps: seq<Step>, n: nat, i: nat)
    requires IsRace(run, steps) && n <= |steps| && i < |run[n].racers|
    ensures run[n].racers[i].Checking? || run[n].racers[i].Claiming? || run[n].racers[i].Attached? ==>
      exists m: nat :: m < n && SawInTime(run, steps, m, i)
    ensures run[n].racers[i].Claiming? || run[n].racers[i].Attached? ==> Connectable(run[n].racers[i].vm)
  {
    RaceKeeps(run, steps, n);
    if n > 0 {
      assert Possible(run[n - 1], steps[n - 1]) && run[n - 1 + 1] == Next(run[n - 1], steps[n - 1]);
      if i < |run[n - 1].racers| {
        ClaimsAreChecked(run, steps, n - 1, i);
        assert steps[n - 1].ReadSession? && steps[n - 1].i == i && run[n].racers[i].Checking? ==> SawInTime(run, steps, n - 1, i);
      }
    }
  }

  /** At step m handler i read the session open and not yet expired. */
  ghost predicate SawInTime(run: seq<State>, steps: seq<Step>, m: nat, i: nat)
    requires IsRace(run, steps) && m < |steps|
  {
    steps[m].ReadSession? && steps[m].i == i && Open(run[m].status) && steps[m].now < run[m].expires
  }

  /** A claim succeeds only while the session is open, after the same handler saw it open
      and unexpired and saw a live, running, SSH-ready VM with an address. */
  lemma ClaimSaw(run: seq<State>, steps: seq<Step>, n: nat)
    requires IsRace(run, steps) && n < |steps| && steps[n].Claim? && run[n + 1].racers[steps[n].i].Attached?
    ensures Open(run[n].status) && run[n + 1].status == Connected
    ensures Connectable(run[n].racers[steps[n].i].vm)
    ensures exists m: nat :: m < n && SawInTime(run, steps, m, steps[n].i)
  {
    assert Possible(run[n], steps[n]) && run[n + 1] == Next(run[n], steps[n]);
    ClaimsAreChecked(run, steps, n, steps[n].i);
  }

  /** A session is claimed only by a handler that saw it open before its time was over: a
      minute from its creation, or its time to live if that is longer. */
  lemma ClaimedInTime(run: seq<State>, steps: seq<Step>, n: nat, created: int, ttl: int)
    requires IsRace(run, steps) && run[0] == NewSession(created, ttl)
    requires n < |steps| && steps[n].Claim? && run[n + 1].racers[steps[n].i].Attached?
    ensures exists m: nat ::
      m < n && SawInTime(run, steps, m, steps[n].i) && (steps[m].now < created + 60 || steps[m].now < created + ttl)
  {
    ClaimSaw(run, steps, n);
    var m: nat :| m < n && SawInTime(run, steps, m, steps[n].i);
    RaceKeeps(run, steps, m);
    assert steps[m].now < created + 60 || steps[m].now < created + ttl;
  }

  /** A handler wrote, or is about to write, that the session expired. */
  predicate SaysExpired(s: State) {
    Expired in s.log || exists i :: 0 <= i < |s.racers| && s.racers[i].Overdue?
  }

  lemma {:induction false} ExpiredWasOverdue(run: seq<State>, steps: seq<Step>, n: nat)
    requires IsRace(run, steps) && n <= |steps| && SaysExpired(run[n])
    ensures exists m: nat :: m < n && steps[m].ReadSession? && run[0].expires <= steps[m].now
  {
    if n > 0 {
      assert Possible(run[n - 1], steps[n - 1]) && run[n - 1 + 1] == Next(run[n - 1], steps[n - 1]);
      RaceKeeps(run, steps, n - 1);
      if SaysExpired(run[n - 1]) {
        ExpiredWasOverdue(run, steps, n - 1);
      } else {
        assert steps[n - 1].ReadSession? && run[0].expires <= steps[n - 1].now;
      }
    }
  }

  /** No session is marked expired within a minute of its creation, nor within its time to
      live: only a handler whose clock has passed that marks it. */
  lemma NotExpiredEarly(run: seq<State>, steps: seq<Step>, n: nat, created: int, ttl: int)
    requires IsRace(run, steps) && run[0] == NewSession(created, ttl) && n <= |steps|
    requires forall m :: 0 <= m < n && steps[m].ReadSession? ==> steps[m].now < created + 60 || steps[m].now < created + ttl
    ensures Expired !in run[n].log && run[n].status != Expired
  {
    RaceKeeps(run, steps, n);
    if SaysExpired(run[n]) { ExpiredWasOverdue(run, steps, n); }
  }
}
