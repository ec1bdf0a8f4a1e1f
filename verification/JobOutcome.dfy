/** What a job does, told from the answers it got: which calls it makes in which order, when
    it fails, and what it leaves in its VM row. */
module JobOutcome {
  import opened Wrappers
  import opened Entities
  import opened Panel
  import opened PanelInterference
  import opened PanelPaths

  // ---------------------------------------------------------------- reading a path

  /** The answers that end a job: a call that fails, unless the source swallows the error
      at that place. Stopping the guest before its removal, and resetting its identity, may
      meet any Proxmox error; the waits for an address may time out; a check never fails; a
      disk that cannot be resized is fatal only if its size is known to be too small. */
  predicate Fatal(m: Move) {
    var a := m.answer;
    var failure := a == ProxmoxFailure || a == ProxmoxTimeout || a == OtherFailure;
    match m.before.at
    case StopGuest => a == OtherFailure
    case ResetIdentity(_) => a == OtherFailure
    case AwaitIp(_) => a == ProxmoxFailure || a == OtherFailure
    case PowerIp => a == ProxmoxFailure || a == OtherFailure
    case Probe => false
    case Clone => failure || a.LostGuest?
    case Resize(_) => failure || (a.Size? && !a.resized && a.current.Some? && a.current.value < m.before.vm.diskGb)
    case _ => failure
  }

  function Places(moves: seq<Move>): (r: seq<Place>)
    ensures |r| == |moves|
  {
    seq(|moves|, i requires 0 <= i < |moves| => moves[i].before.at)
  }

  /** The address in the last answer that carried one. */
  function LastAddress(moves: seq<Move>): Option<string> {
    if moves == [] then None
    else if moves[|moves| - 1].answer.Address? then Some(moves[|moves| - 1].answer.ip)
    else LastAddress(moves[..|moves| - 1])
  }

  /** The guest of the last accepted clone. */
  function ClonedGuest(moves: seq<Move>): Option<Vmid> {
    if moves == [] then None
    else if moves[|moves| - 1].answer.NewGuest? then Some(moves[|moves| - 1].answer.guest)
    else ClonedGuest(moves[..|moves| - 1])
  }

  /** The disk size in the last answer that knew it. */
  function SizeRead(moves: seq<Move>): Option<int> {
    if moves == [] then None
    else if moves[|moves| - 1].answer.Size? && moves[|moves| - 1].answer.current.Some?
    then moves[|moves| - 1].answer.current
    else SizeRead(moves[..|moves| - 1])
  }

  /** destroy_existing_vm has returned and its caller has committed that. */
  predicate LetGo(moves: seq<Move>) {
    exists i :: 0 <= i < |moves| && moves[i].before.at == Destroyed
  }

  /** The clone task ended well, and the row took the clone over. */
  predicate TookOver(moves: seq<Move>) {
    exists i :: 0 <= i < |moves| && moves[i].before.at.AwaitClone? && moves[i].answer == Ok
  }

  /** target_vmid was committed. */
  predicate Recorded(moves: seq<Move>) {
    exists i :: 0 <= i < |moves| && moves[i].before.at.Cloned?
  }

  lemma OneMore(moves: seq<Move>, m: Move)
    ensures Places(moves + [m]) == Places(moves) + [m.before.at]
    ensures LastAddress(moves + [m]) == if m.answer.Address? then Some(m.answer.ip) else LastAddress(moves)
    ensures ClonedGuest(moves + [m]) == if m.answer.NewGuest? then Some(m.answer.guest) else ClonedGuest(moves)
    ensures SizeRead(moves + [m]) == if m.answer.Size? && m.answer.current.Some? then m.answer.current else SizeRead(moves)
    ensures LetGo(moves + [m]) <==> LetGo(moves) || m.before.at == Destroyed
    ensures TookOver(moves + [m]) <==> TookOver(moves) || (m.before.at.AwaitClone? && m.answer == Ok)
    ensures Recorded(moves + [m]) <==> Recorded(moves) || m.before.at.Cloned?
  {
    var all := moves + [m];
    assert all[..|moves|] == moves && all[|moves|] == m;
    forall i | 0 <= i < |moves| ensures all[i] == moves[i] {}
    if LetGo(moves) {
      var i :| 0 <= i < |moves| && moves[i].before.at == Destroyed;
      assert all[i].before.at == Destroyed;
    }
    if TookOver(moves) {
      var i :| 0 <= i < |moves| && moves[i].before.at.AwaitClone? && moves[i].answer == Ok;
      assert all[i].before.at.AwaitClone?;
    }
    if Recorded(moves) {
      var i :| 0 <= i < |moves| && moves[i].before.at.Cloned?;
      assert all[i].before.at.Cloned?;
    }
  }

  // ---------------------------------------------------------------- the calls and their order

  /** The places of destroy_existing_vm up to its return. */
  function DestroyRoute(start: Local, moves: seq<Move>): seq<Place> {
    if start.vm.vmid == None then [Begin]
    else if |moves| > 1 && moves[1].answer == Missing then [Begin, Resolve]
    else [Begin, Resolve, StopGuest, Destroy, AwaitDestroy]
  }

  /** The places before provisioning. */
  function Head(start: Local, moves: seq<Move>): seq<Place> {
    if start.job.kind == CreateVm then [Begin] else DestroyRoute(start, moves) + [Destroyed]
  }

  /** The places of provisioning up to the recorded clone, and to the first address. */
  function CloneRoute(g: Vmid): seq<Place> {
    [Provision, Clone, Cloned(g), AwaitClone(g)]
  }

  function SetupRoute(g: Vmid): seq<Place> {
    CloneRoute(g) + [Configure(g), Resize(g), BootGuest(g), AwaitIp(g)]
  }

  /** All the places of a job that ended well. */
  predicate FullRoute(start: Local, moves: seq<Move>) {
    var p := Places(moves);
    match start.job.kind
    case CreateVm => ProvisionRoute(start, moves, p)
    case ReinstallVm => ProvisionRoute(start, moves, p)
    case DeleteVm => p == DestroyRoute(start, moves) + [Destroyed]
    case StartVm => p == [Begin, PowerCall, PowerIp]
    case RebootVm => p == [Begin, PowerCall, PowerIp]
    case StopVm => p == [Begin, PowerCall]
    case SshCheck => p == if start.vm.ip == None then [Begin] else [Begin, Probe]
  }

  predicate ProvisionRoute(start: Local, moves: seq<Move>, p: seq<Place>) {
    var g := ClonedGuest(moves);
    && g.Some?
    && p == Head(start, moves) + SetupRoute(g.value)
         + if LastAddress(moves).Some? then [ResetIdentity(g.value)] else []
  }

  /** Where a job stands, by the places it has been at. */
  predicate OnRoute(start: Local, moves: seq<Move>, at: Place) {
    var p, kind := Places(moves), start.job.kind;
    var destroys := kind == ReinstallVm || kind == DeleteVm;
    var provisions := kind == CreateVm || kind == ReinstallVm;
    match at
    case Begin => moves == []
    case Resolve => destroys && start.vm.vmid != None && p == [Begin]
    case StopGuest => destroys && start.vm.vmid != None && p == [Begin, Resolve] && moves[1].answer != Missing
    case Destroy => destroys && start.vm.vmid != None && p == [Begin, Resolve, StopGuest] && moves[1].answer != Missing
    case AwaitDestroy =>
      destroys && start.vm.vmid != None && p == [Begin, Resolve, StopGuest, Destroy] && moves[1].answer != Missing
    case Destroyed => destroys && p == DestroyRoute(start, moves)
    case Provision => provisions && p == Head(start, moves)
    case Clone => provisions && p == Head(start, moves) + [Provision]
    case Cloned(g) => provisions && p == Head(start, moves) + [Provision, Clone]
    case AwaitClone(g) => provisions && p == Head(start, moves) + [Provision, Clone, Cloned(g)]
    case Configure(g) => provisions && p == Head(start, moves) + CloneRoute(g)
    case Resize(g) => provisions && p == Head(start, moves) + (CloneRoute(g) + [Configure(g)])
    case BootGuest(g) => provisions && p == Head(start, moves) + (CloneRoute(g) + [Configure(g), Resize(g)])
    case AwaitIp(g) => provisions && p == Head(start, moves) + (CloneRoute(g) + [Configure(g), Resize(g), BootGuest(g)])
    case ResetIdentity(g) => provisions && p == Head(start, moves) + SetupRoute(g)
    case PowerCall => (kind == StartVm || kind == StopVm || kind == RebootVm) && p == [Begin]
    case PowerIp => (kind == StartVm || kind == RebootVm) && p == [Begin, PowerCall]
    case Probe => kind == SshCheck && start.vm.ip != None && p == [Begin]
    case Finish => FullRoute(start, moves)
    case Failing => moves != []
    case _ => false
  }

  /** The guest that a place is about is the one that was cloned. */
  predicate AboutClone(moves: seq<Move>, at: Place) {
    && (at.Cloned? || at.AwaitClone? || at.Configure? || at.Resize? || at.BootGuest? || at.AwaitIp? || at.ResetIdentity? ==>
          ClonedGuest(moves) == Some(at.guest))
    && (at.ResetIdentity? ==> LastAddress(moves).Some?)
    && (!at.ResetIdentity? && !at.Finish? && !at.Failing? ==> LastAddress(moves) == None)
    && (!at.BootGuest? && !at.AwaitIp? && !at.ResetIdentity? && !at.Finish? && !at.Failing? ==> SizeRead(moves) == None)
  }

  // ---------------------------------------------------------------- the rows

  /** The address that the row is to show: the last one found, or else what the job left of
      the one before, which a reinstall cleared. */
  function AddressAfter(start: Local, moves: seq<Move>): Option<string> {
    if LastAddress(moves).Some? then LastAddress(moves)
    else if start.job.kind == ReinstallVm && LetGo(moves) then None
    else start.vm.ip
  }

  /** The columns that the job's answers decide, wherever it stands. */
  predicate RowLeft(start: Local, moves: seq<Move>, vm: Vm) {
    var kind := start.job.kind;
    && vm.hostname == start.vm.hostname
    && vm.vmid == (if TookOver(moves) then ClonedGuest(moves)
                   else if kind == ReinstallVm && LetGo(moves) then None else start.vm.vmid)
    && vm.ip == AddressAfter(start, moves)
    && vm.deleted == (start.vm.deleted || (kind == DeleteVm && LetGo(moves)))
    && vm.diskGb == (if SizeRead(moves).Some? && SizeRead(moves).value > start.vm.diskGb
                     then SizeRead(moves).value else start.vm.diskGb)
  }

  predicate RowSoFar(start: Local, moves: seq<Move>, l: Local) {
    && l.v == start.v
    && l.job == start.job.(target := if Recorded(moves) then ClonedGuest(moves) else start.job.target)
    && RowLeft(start, moves, l.vm)
  }

  /** The status that the row shows while the job stands at a place. */
  predicate ShowsStatus(start: Local, at: Place, status: VmStatus) {
    var kind := start.job.kind;
    match at
    case Begin => status == start.vm.status
    case Probe => status == start.vm.status
    case Resolve => status == Deleting
    case StopGuest => status == Deleting
    case Destroy => status == Deleting
    case AwaitDestroy => status == Deleting
    case Destroyed => status == Deleting
    case Provision => status == if kind == CreateVm then start.vm.status else Provisioning
    case Clone => status == if kind == CreateVm then start.vm.status else Provisioning
    case Cloned(_) => status == if kind == CreateVm then start.vm.status else Provisioning
    case AwaitClone(_) => status == if kind == CreateVm then start.vm.status else Provisioning
    case Configure(_) => status == Provisioning
    case Resize(_) => status == Provisioning
    case BootGuest(_) => status == Provisioning
    case AwaitIp(_) => status == Running
    case ResetIdentity(_) => status == Running
    case PowerCall => status == if kind == StartVm then Starting else if kind == StopVm then Stopping else Rebooting
    case PowerIp => status == if kind == StartVm then Starting else Rebooting
    case Finish => status == FinalStatus(start)
    case _ => true
  }

  /** The status after a job that ended well. */
  function FinalStatus(start: Local): VmStatus {
    match start.job.kind
    case CreateVm => Running
    case ReinstallVm => Running
    case StartVm => Running
    case RebootVm => Running
    case StopVm => Stopped
    case DeleteVm => Deleted
    case SshCheck => start.vm.status
  }

  /** The ssh_status of the job's session. */
  predicate SessionSsh(start: Local, moves: seq<Move>, at: Place, ssh: SshStatus) {
    var kind := start.job.kind;
    match at
    case Begin => ssh == start.ssh
    case Probe => ssh == start.ssh
    case Provision => ssh == if kind == CreateVm then start.ssh else SshPending
    case PowerCall => ssh == if kind == StartVm then SshPending else start.ssh
    case PowerIp => ssh == if kind == StartVm then SshPending else start.ssh
    case Finish => ssh == FinalSsh(start, moves)
    case Failing => true
    case _ => ssh == if DestroyPlace(at) && kind == DeleteVm then start.ssh else SshPending
  }

  /** After a job that ended well: failed if no address came, ready only by a check that got
      through, pending after provisioning and start. */
  function FinalSsh(start: Local, moves: seq<Move>): SshStatus {
    match start.job.kind
    case CreateVm => if LastAddress(moves) == None then SshFailed else SshPending
    case ReinstallVm => if LastAddress(moves) == None then SshFailed else SshPending
    case StartVm => if LastAddress(moves) == None then SshFailed else SshPending
    case RebootVm => if LastAddress(moves) == None then SshFailed else start.ssh
    case StopVm => start.ssh
    case DeleteVm => start.ssh
    case SshCheck =>
      if start.vm.ip != None && |moves| > 0 && moves[|moves| - 1].answer == Ok then SshReady else SshFailed
  }

  /** The column holds the session's value, or an API re-check has reset it. */
  predicate Linked(l: Local) {
    l.vm.ssh == l.ssh || l.vm.ssh == SshPending
  }

  /** A job as dispatch begins it: rows just read, nothing of it recorded yet. */
  predicate Begins(start: Local) {
    start.at == Begin && Linked(start) && start.job.target == None
  }

  predicate Tracked(start: Local, moves: seq<Move>, l: Local) {
    && OnRoute(start, moves, l.at) && AboutClone(moves, l.at)
    && RowSoFar(start, moves, l)
    && ShowsStatus(start, l.at, l.vm.status)
    && SessionSsh(start, moves, l.at, l.ssh) && Linked(l)
  }

  lemma MeddledTracked(start: Local, moves: seq<Move>, was: Local, m: Meddling)
    requires Tracked(start, moves, was)
    ensures Tracked(start, moves, Meddle(was, m))
  {
  }

  /** Once the search for the guest is over, the head of the route is settled. */
  lemma HeadSettled(start: Local, moves: seq<Move>, m: Move)
    requires start.job.kind == CreateVm || start.vm.vmid == None || |moves| > 1
    ensures DestroyRoute(start, moves + [m]) == DestroyRoute(start, moves) || start.job.kind == CreateVm
    ensures Head(start, moves + [m]) == Head(start, moves)
  {
  }

  lemma Snoc(head: seq<Place>, tail: seq<Place>, at: Place)
    ensures (head + tail) + [at] == head + (tail + [at])
  {
  }

  predicate Placed(start: Local, moves: seq<Move>, at: Place) {
    OnRoute(start, moves, at) && AboutClone(moves, at)
  }

  lemma DestroyPlaced(start: Local, moves: seq<Move>, l: Local, a: Answer)
    requires Placed(start, moves, l.at) && DestroyPlace(l.at) && CanAnswer(l, a) && l.job.kind == start.job.kind
    requires l.vm.vmid == start.vm.vmid
    ensures Placed(start, moves + [Move(l, a)], DoDestroy(l, a).at)
  {
    OneMore(moves, Move(l, a));
    if l.at.Destroyed? {
      HeadSettled(start, moves, Move(l, a));
    } else if !l.at.Resolve? {
      assert (moves + [Move(l, a)])[1] == moves[1];
    }
  }

  lemma ClonePlaced(start: Local, moves: seq<Move>, l: Local, a: Answer)
    requires Placed(start, moves, l.at) && ClonePlace(l.at) && CanAnswer(l, a)
    ensures Placed(start, moves + [Move(l, a)], DoClone(l, a).at)
  {
    OneMore(moves, Move(l, a));
    assert |Places(moves)| >= |Head(start, moves)|;
    HeadSettled(start, moves, Move(l, a));
    var head := Head(start, moves);
    match l.at
    case Provision => 
    case Clone => Snoc(head, [Provision], l.at);
    case Cloned(g) => Snoc(head, [Provision, Clone], l.at);
    case AwaitClone(g) => Snoc(head, [Provision, Clone, Cloned(g)], l.at);
  }

  lemma BootPlaced(start: Local, moves: seq<Move>, l: Local, a: Answer)
    requires Placed(start, moves, l.at) && CanAnswer(l, a)
    requires l.at.Configure? || l.at.Resize? || l.at.BootGuest?
    ensures Placed(start, moves + [Move(l, a)], DoSetup(l, a).at)
  {
    var g := l.at.guest;
    OneMore(moves, Move(l, a));
    assert |Places(moves)| >= |Head(start, moves)|;
    HeadSettled(start, moves, Move(l, a));
    if l.at.Configure? {
      Snoc(Head(start, moves), CloneRoute(g), l.at);
    } else if l.at.Resize? {
      Snoc(Head(start, moves), CloneRoute(g) + [Configure(g)], l.at);
      Snoc(CloneRoute(g), [Configure(g)], l.at);
    } else {
      Snoc(Head(start, moves), CloneRoute(g) + [Configure(g), Resize(g)], l.at);
      Snoc(CloneRoute(g), [Configure(g), Resize(g)], l.at);
    }
  }

  lemma AddressPlaced(start: Local, moves: seq<Move>, l: Local, a: Answer)
    requires Placed(start, moves, l.at) && CanAnswer(l, a) && (l.at.AwaitIp? || l.at.ResetIdentity?)
    ensures Placed(start, moves + [Move(l, a)], DoSetup(l, a).at)
  {
    var g := l.at.guest;
    OneMore(moves, Move(l, a));
    assert |Places(moves)| >= |Head(start, moves)|;
    HeadSettled(start, moves, Move(l, a));
    if l.at.AwaitIp? {
      Snoc(Head(start, moves), CloneRoute(g) + [Configure(g), Resize(g), BootGuest(g)], l.at);
      Snoc(CloneRoute(g), [Configure(g), Resize(g), BootGuest(g)], l.at);
      assert Head(start, moves) + SetupRoute(g) + [] == Head(start, moves) + SetupRoute(g);
    }
  }

  lemma BeginTracked(start: Local, moves: seq<Move>, l: Local, a: Answer)
    requires Tracked(start, moves, l) && l.at == Begin && CanAnswer(l, a)
    ensures Tracked(start, moves + [Move(l, a)], DoBegin(l, a))
  {
    OneMore(moves, Move(l, a));
  }

  lemma DestroyTracked(start: Local, moves: seq<Move>, l: Local, a: Answer)
    requires Tracked(start, moves, l) && DestroyPlace(l.at) && CanAnswer(l, a)
    ensures Tracked(start, moves + [Move(l, a)], DoDestroy(l, a))
  {
    NoneYet(start, moves, l.at);
    DestroyPlaced(start, moves, l, a);
    OneMore(moves, Move(l, a));
  }

  /** Early in a job there is nothing let go, recorded or taken over. */
  lemma NoneYet(start: Local, moves: seq<Move>, at: Place)
    requires OnRoute(start, moves, at)
    ensures at.Begin? || DestroyPlace(at) ==> !LetGo(moves) && !TookOver(moves) && !Recorded(moves)
    ensures ClonePlace(at) ==> !TookOver(moves) && (!at.AwaitClone? ==> !Recorded(moves))
  {
    assert forall i :: 0 <= i < |moves| ==> Places(moves)[i] == moves[i].before.at;
  }

  lemma CloneTracked(start: Local, moves: seq<Move>, l: Local, a: Answer)
    requires Tracked(start, moves, l) && ClonePlace(l.at) && CanAnswer(l, a)
    ensures Tracked(start, moves + [Move(l, a)], DoClone(l, a))
  {
    NoneYet(start, moves, l.at);
    ClonePlaced(start, moves, l, a);
    OneMore(moves, Move(l, a));
  }

  lemma BootTracked(start: Local, moves: seq<Move>, l: Local, a: Answer)
    requires Tracked(start, moves, l) && CanAnswer(l, a) && (l.at.Configure? || l.at.Resize? || l.at.BootGuest?)
    ensures Tracked(start, moves + [Move(l, a)], DoSetup(l, a))
  {
    BootPlaced(start, moves, l, a);
    OneMore(moves, Move(l, a));
  }

  lemma AddressTracked(start: Local, moves: seq<Move>, l: Local, a: Answer)
    requires Tracked(start, moves, l) && CanAnswer(l, a) && (l.at.AwaitIp? || l.at.ResetIdentity?)
    ensures Tracked(start, moves + [Move(l, a)], DoSetup(l, a))
  {
    AddressPlaced(start, moves, l, a);
    OneMore(moves, Move(l, a));
  }

  lemma PowerPlaced(start: Local, moves: seq<Move>, l: Local, a: Answer)
    requires Placed(start, moves, l.at) && PowerPlace(l.at) && CanAnswer(l, a) && l.job.kind == start.job.kind
    ensures Placed(start, moves + [Move(l, a)], DoPower(l, a).at)
  {
    OneMore(moves, Move(l, a));
  }

  lemma PowerTracked(start: Local, moves: seq<Move>, l: Local, a: Answer)
    requires Tracked(start, moves, l) && PowerPlace(l.at) && CanAnswer(l, a)
    ensures Tracked(start, moves + [Move(l, a)], DoPower(l, a))
  {
    PowerPlaced(start, moves, l, a);
    OneMore(moves, Move(l, a));
  }

  lemma BodyTracked(start: Local, moves: seq<Move>, l: Local, a: Answer)
    requires Tracked(start, moves, l) && !EdgePlace(l.at) && CanAnswer(l, a)
    ensures Tracked(start, moves + [Move(l, a)], DoBody(l, a))
  {
    if l.at.Begin? { BeginTracked(start, moves, l, a); }
    else if DestroyPlace(l.at) { DestroyTracked(start, moves, l, a); }
    else if ClonePlace(l.at) { CloneTracked(start, moves, l, a); }
    else if l.at.AwaitIp? || l.at.ResetIdentity? { AddressTracked(start, moves, l, a); }
    else if SetupPlace(l.at) { BootTracked(start, moves, l, a); }
    else { PowerTracked(start, moves, l, a); }
  }

  lemma {:induction false} PathTracked(start: Local, moves: seq<Move>, meddlings: seq<Meddling>, next: Local)
    requires Path(start, moves, meddlings, next) && Begins(start)
    ensures Tracked(start, moves, next)
    decreases |moves|
  {
    if moves == [] {
      assert !LetGo(moves) && !TookOver(moves) && !Recorded(moves);
    } else {
      var n := |moves| - 1;
      var was, m := LastMove(start, moves, meddlings, next);
      PathTracked(start, moves[..n], meddlings[..n], was);
      MeddledTracked(start, moves[..n], was, m);
      BodyTracked(start, moves[..n], Meddle(was, m), moves[n].answer);
    }
  }

  // ---------------------------------------------------------------- how jobs end

  /** The last answer, if any, was not fatal. */
  predicate WentWell(moves: seq<Move>) {
    moves == [] || !Fatal(moves[|moves| - 1])
  }

  predicate NoneFatal(moves: seq<Move>) {
    forall i :: 0 <= i < |moves| ==> !Fatal(moves[i])
  }

  lemma FatalFails(l: Local, a: Answer)
    requires !EdgePlace(l.at) && CanAnswer(l, a)
    ensures DoBody(l, a).at.Failing? <==> Fatal(Move(l, a))
  {
  }

  lemma NoneFatalSnoc(moves: seq<Move>)
    requires moves != []
    ensures NoneFatal(moves) <==> NoneFatal(moves[..|moves| - 1]) && !Fatal(moves[|moves| - 1])
  {
    var n := |moves| - 1;
    forall i | 0 <= i < n ensures moves[..n][i] == moves[i] {}
  }

  lemma LastFatal(start: Local, moves: seq<Move>, meddlings: seq<Meddling>, next: Local)
    requires Path(start, moves, meddlings, next) && moves != []
    ensures next.at.Failing? <==> Fatal(moves[|moves| - 1])
  {
    var m := moves[|moves| - 1];
    FatalFails(m.before, m.answer);
    assert m == Move(m.before, m.answer);
  }

  /** A job fails at its first fatal answer, and at no other. */
  lemma {:induction false} FailsIff(start: Local, moves: seq<Move>, meddlings: seq<Meddling>, next: Local)
    requires Path(start, moves, meddlings, next) && !start.at.Failing?
    ensures next.at.Failing? <==> !NoneFatal(moves)
    ensures moves != [] ==> NoneFatal(moves[..|moves| - 1])
    decreases |moves|
  {
    if moves != [] {
      var n := |moves| - 1;
      var was, m := LastMove(start, moves, meddlings, next);
      FailsIff(start, moves[..n], meddlings[..n], was);
      LastFatal(start, moves, meddlings, next);
      NoneFatalSnoc(moves);
    }
  }

  /** An answer that reports no failure. */
  predicate NoFailure(a: Answer) {
    match a
    case Ok => true
    case Missing => true
    case NewGuest(_) => true
    case Address(_) => true
    case Size(current, resized) => resized || current == None
    case _ => false
  }

  lemma NoFailureIsNotFatal(moves: seq<Move>)
    requires forall i :: 0 <= i < |moves| ==> NoFailure(moves[i].answer)
    ensures NoneFatal(moves)
  {
  }

  /** A job none of whose answers reports a failure ends well: it is at Finish once it has
      left its job function. */
  lemma CleanJobEndsWell(start: Local, moves: seq<Move>, meddlings: seq<Meddling>, next: Local)
    requires Path(start, moves, meddlings, next) && Begins(start)
    requires EdgePlace(next.at) && forall i :: 0 <= i < |moves| ==> NoFailure(moves[i].answer)
    ensures next.at == Finish
  {
    NoFailureIsNotFatal(moves);
    JobEnds(start, moves, meddlings, next);
  }

  /** What a job that ended well leaves in its rows. */
  predicate Outcome(start: Local, moves: seq<Move>, vm: Vm, job: Job) {
    var kind := start.job.kind;
    && FullRoute(start, moves)
    && job == start.job.(status := job.status, target := job.target)
    && vm.hostname == start.vm.hostname
    && vm.status == FinalStatus(start)
    && (vm.ssh == FinalSsh(start, moves) || vm.ssh == SshPending)
    && vm.deleted == (start.vm.deleted || kind == DeleteVm)
    && vm.ip == (if LastAddress(moves).Some? then LastAddress(moves)
                 else if kind == ReinstallVm then None else start.vm.ip)
    && vm.diskGb == (if SizeRead(moves).Some? && SizeRead(moves).value > start.vm.diskGb
                     then SizeRead(moves).value else start.vm.diskGb)
    && (if kind == CreateVm || kind == ReinstallVm
        then ClonedGuest(moves).Some? && vm.vmid == ClonedGuest(moves) && job.target == ClonedGuest(moves)
        else vm.vmid == start.vm.vmid && job.target == start.job.target)
  }

  lemma RouteDone(start: Local, moves: seq<Move>)
    requires FullRoute(start, moves)
    requires forall i :: 0 <= i < |moves| && moves[i].before.at.AwaitClone? ==> moves[i].answer == Ok
    ensures start.job.kind == DeleteVm ==> LetGo(moves)
    ensures start.job.kind == ReinstallVm ==> LetGo(moves)
    ensures (start.job.kind == CreateVm || start.job.kind == ReinstallVm) ==> TookOver(moves) && Recorded(moves)
    ensures start.job.kind != CreateVm && start.job.kind != ReinstallVm ==> !TookOver(moves) && !Recorded(moves)
  {
    var p := Places(moves);
    assert forall i :: 0 <= i < |moves| ==> p[i] == moves[i].before.at;
    var head := Head(start, moves);
    if start.job.kind == DeleteVm {
      assert p[|p| - 1] == Destroyed && moves[|p| - 1].before.at == Destroyed;
    }
    if start.job.kind == CreateVm || start.job.kind == ReinstallVm {
      var n := |head|;
      assert p[n - 1] == head[n - 1] && p[n + 2].Cloned? && p[n + 3].AwaitClone?;
      assert moves[n - 1].before.at == head[n - 1] && moves[n + 2].before.at.Cloned? && moves[n + 3].before.at.AwaitClone?;
    }
  }

  lemma {:induction false} AnswersAreOk(start: Local, moves: seq<Move>, meddlings: seq<Meddling>, next: Local)
    requires Path(start, moves, meddlings, next) && NoneFatal(moves)
    ensures forall i :: 0 <= i < |moves| && moves[i].before.at.AwaitClone? ==> moves[i].answer == Ok
    decreases |moves|
  {
    if moves != [] {
      var n := |moves| - 1;
      var was, m := LastMove(start, moves, meddlings, next);
      assert forall i :: 0 <= i < n ==> moves[..n][i] == moves[i];
      AnswersAreOk(start, moves[..n], meddlings[..n], was);
    }
  }

  /** A job that ends well has made all its calls in order and leaves what they answered. */
  lemma EndsWithOutcome(start: Local, moves: seq<Move>, meddlings: seq<Meddling>, next: Local)
    requires Path(start, moves, meddlings, next) && Begins(start)
    requires next.at == Finish
    ensures Outcome(start, moves, next.vm, next.job)
  {
    PathTracked(start, moves, meddlings, next);
    FailsIff(start, moves, meddlings, next);
    AnswersAreOk(start, moves, meddlings, next);
    RouteDone(start, moves);
  }

  /** Both ends of a job. */
  lemma JobEnds(start: Local, moves: seq<Move>, meddlings: seq<Meddling>, next: Local)
    requires Path(start, moves, meddlings, next) && Begins(start) && EdgePlace(next.at)
    ensures next.at == if NoneFatal(moves) then Finish else Failing
    ensures NoneFatal(moves) ==> Outcome(start, moves, next.vm, next.job)
    ensures RowSoFar(start, moves, next)
  {
    PathTracked(start, moves, meddlings, next);
    FailsIff(start, moves, meddlings, next);
    if next.at == Finish { EndsWithOutcome(start, moves, meddlings, next); }
  }
}
