/** The Proxmox client: retried requests, bounded polling loops and the search for a guest
    (backend/app/services/proxmox.py). What Proxmox replies and how long things take is
    fixed per client by functions of the request and the sleep number. */
module Polling {
  import opened Numbers
  import opened Wrappers

  /** One element of /cluster/resources; vmid is None when it is not a number. */
  datatype Entry = Entry(vmid: Option<int>, node: string)

  /** The data member of a reply; ip is what parse_first_ipv4 finds in it. */
  datatype Payload =
    | Task(stopped: bool, exit: string)
    | Interfaces(ip: Option<string>)
    | Listing(entries: seq<Entry>)
    | OtherData

  /** Status is a reply outside 2xx; NoAnswer a failed connection or a time-out; Fault any
      exception that _request does not catch. */
  datatype Reply = Data(payload: Payload) | Status(code: int) | NoAnswer | Fault

  /** Refused is ProxmoxAuthError, Failed any other ProxmoxError, Raised another exception. */
  datatype Outcome = Got(payload: Payload) | Refused | Failed | Raised

  const RETRY_STATUSES := {429, 500, 502, 503, 504}

  predicate Retried(r: Reply) {
    r.NoAnswer? || (r.Status? && r.code in RETRY_STATUSES)
  }

  /** No answer in time, or one of the five statuses that may pass. */
  predicate WorthRetrying(r: Reply) {
    r == NoAnswer || r in {Status(429), Status(500), Status(502), Status(503), Status(504)}
  }

  /** What the last reply to a request means to the caller. */
  function Meaning(r: Reply): Outcome {
    match r
    case Data(payload) => Got(payload)
    case Status(code) => if code == 401 || code == 403 then Refused else Failed
    case NoAnswer => Failed
    case Fault => Raised
  }

  /** The number of the reply that decides a request whose first reply is number n, of at
      most tries. */
  function Deciding(replies: nat -> Reply, n: nat, tries: nat): (last: nat)
    ensures n <= last && (tries > 0 ==> last < n + tries)
    ensures forall i :: n <= i < last ==> Retried(replies(i))
    ensures tries <= 1 || last == n + tries - 1 || !Retried(replies(last))
    decreases tries
  {
    if tries <= 1 || !Retried(replies(n)) then n else Deciding(replies, n + 1, tries - 1)
  }

  /** The reply that decides a request of four tries, and what it means. */
  lemma DecidingReply(replies: nat -> Reply, n: nat)
    ensures var last := Deciding(replies, n, 4);
      && n <= last <= n + 3
      && (forall i :: n <= i < last ==> WorthRetrying(replies(i)))
      && (last == n + 3 || !WorthRetrying(replies(last)))
    ensures var o := Meaning(replies(Deciding(replies, n, 4)));
      var reply := replies(Deciding(replies, n, 4));
      && (o.Got? <==> reply.Data?) && (reply.Data? ==> o == Got(reply.payload))
      && (o.Refused? <==> reply == Status(401) || reply == Status(403))
      && (o.Raised? <==> reply == Fault)
  {
  }

  predicate IsProxmoxError(o: Outcome) {
    o.Refused? || o.Failed?
  }

  /** The most polls a loop with this deadline and pause can make. */
  function MostPolls(timeout: real, interval: real): int
    requires 0.0 <= timeout && 0.0 < interval
  {
    Ceil(timeout / interval) + 1
  }

  /** The time that n pauses take at least. */
  function Pauses(n: nat, interval: real): real {
    if n == 0 then 0.0 else Pauses(n - 1, interval) + interval
  }

  lemma {:induction false} PausesScale(n: nat, interval: real)
    ensures Pauses(n, interval) == n as real * interval
  {
    if n > 0 {
      PausesScale(n - 1, interval);
      assert n as real * interval == (n - 1) as real * interval + interval;
    }
  }

  /** n pauses are followed by another poll only if n - 1 of them fit before the deadline. */
  lemma PausesFit(n: nat, timeout: real, interval: real)
    requires 0.0 <= timeout && 0.0 < interval
    requires n == 0 || Pauses(n - 1, interval) < timeout
    ensures n + 1 <= MostPolls(timeout, interval)
  {
    var x := timeout / interval;
    assert x * interval == timeout;
    if n > 0 && x <= (n - 1) as real {
      PausesScale(n - 1, interval);
      Scale(x, (n - 1) as real, interval);
      assert false;
    }
  }

  lemma Scale(a: real, b: real, c: real)
    requires a <= b && 0.0 <= c
    ensures a * c <= b * c
  {
  }

  datatype TaskEnd = Finished(exit: string) | TaskError(exit: string) | TaskTimeout | TaskFault(cause: Outcome)

  datatype IpEnd = Address(ip: string) | IpTimeout | IpFault

  datatype Lookup = At(node: string) | NotFound | WithoutNode | LookupFault(cause: Outcome)

  predicate StillRunning(o: Outcome) {
    o.Got? && o.payload.Task? && !o.payload.stopped
  }

  /** A task that ended well: stopped, with no exit status or OK. */
  predicate EndedWell(o: Outcome) {
    o.Got? && o.payload.Task? && o.payload.stopped && o.payload.exit in {"", "OK"}
  }

  predicate HasAddress(o: Outcome) {
    o.Got? && o.payload.Interfaces? && o.payload.ip.Some?
  }

  /** cluster_resources: a reply that is no list reads as an empty one. */
  function Entries(p: Payload): seq<Entry> {
    if p.Listing? then p.entries else []
  }

  predicate Lists(entries: seq<Entry>, vmid: int) {
    exists i :: 0 <= i < |entries| && entries[i].vmid == Some(vmid)
  }

  /** Entry i is the first one for this VMID. */
  predicate IsFirst(entries: seq<Entry>, i: int, vmid: int)
    requires 0 <= i < |entries|
  {
    entries[i].vmid == Some(vmid) && forall k :: 0 <= k < i ==> entries[k].vmid != Some(vmid)
  }

  /** find_vm_resource in a listing, and what resolve_vm_node makes of it */
  function Find(entries: seq<Entry>, vmid: int): (r: Lookup)
    ensures r.NotFound? <==> !Lists(entries, vmid)
    ensures r.At? ==> r.node != "" && Entry(Some(vmid), r.node) in entries
    ensures !r.LookupFault?
  {
    if entries == [] then NotFound
    else if entries[0].vmid == Some(vmid) then
      assert Lists(entries, vmid);
      if entries[0].node == "" then WithoutNode else At(entries[0].node)
    else
      assert forall i :: 0 <= i < |entries[1..]| ==> entries[1..][i] == entries[i + 1];
      assert Lists(entries, vmid) ==> Lists(entries[1..], vmid);
      Find(entries[1..], vmid)
  }

  /** The first entry of a VMID decides, by its node. */
  lemma {:induction false} FirstEntryDecides(entries: seq<Entry>, i: nat, vmid: int)
    requires i < |entries| && IsFirst(entries, i, vmid)
    ensures Find(entries, vmid) == if entries[i].node == "" then WithoutNode else At(entries[i].node)
  {
    if i > 0 {
      FirstEntryDecides(entries[1..], i - 1, vmid);
    }
  }

  function FromListing(o: Outcome, vmid: int): Lookup {
    if o.Got? then Find(Entries(o.payload), vmid) else LookupFault(o)
  }

  /** The outcomes that the two requests of resolve_vm_node come to, when the first reply is
      number n: the status of the guest on the preferred node, and the cluster listing. */
  function StatusOutcome(replies: nat -> Reply, n: nat): Outcome {
    Meaning(replies(Deciding(replies, n, 4)))
  }

  function ListingOutcome(replies: nat -> Reply, n: nat, preferred: string): Outcome {
    var first := if preferred == "" then n else Deciding(replies, n, 4) + 1;
    Meaning(replies(Deciding(replies, first, 4)))
  }

  function Resolved(replies: nat -> Reply, n: nat, preferred: string, vmid: int): Lookup {
    if preferred != "" && StatusOutcome(replies, n).Got? then At(preferred)
    else if preferred != "" && StatusOutcome(replies, n).Raised? then LookupFault(Raised)
    else FromListing(ListingOutcome(replies, n, preferred), vmid)
  }

  /** "Not found" exactly when the preferred node did not confirm the guest and the listing
      came back, as a list or not, without it. */
  lemma NotFoundIff(replies: nat -> Reply, n: nat, preferred: string, vmid: int)
    ensures Resolved(replies, n, preferred, vmid).NotFound? <==>
      var o := ListingOutcome(replies, n, preferred);
      && (preferred == "" || IsProxmoxError(StatusOutcome(replies, n)))
      && o.Got? && !Lists(Entries(o.payload), vmid)
  {
  }

  /** The search fails exactly when asking the preferred node raised something other than a
      Proxmox error, or that node did not confirm and the listing did not come back; and it
      fails with just that. */
  lemma FaultIff(replies: nat -> Reply, n: nat, preferred: string, vmid: int)
    ensures Resolved(replies, n, preferred, vmid).LookupFault? <==>
      var status, listing := StatusOutcome(replies, n), ListingOutcome(replies, n, preferred);
      || (preferred != "" && status.Raised?)
      || ((preferred == "" || IsProxmoxError(status)) && !listing.Got?)
    ensures var r, listing := Resolved(replies, n, preferred, vmid), ListingOutcome(replies, n, preferred);
      r.LookupFault? ==> r.cause == if preferred != "" && StatusOutcome(replies, n).Raised? then Raised else listing
  {
  }

  /** A preferred node that confirms the guest is the answer. */
  lemma ConfirmedIsFound(replies: nat -> Reply, n: nat, preferred: string, vmid: int)
    requires preferred != "" && replies(Deciding(replies, n, 4)).Data?
    ensures Resolved(replies, n, preferred, vmid) == At(preferred)
  {
  }

  /** The listing is truthful about these guests: if it comes back, it is a list, and each
      of them is on it. */
  ghost predicate ListsAll(o: Outcome, existing: set<int>) {
    o.Got? ==> o.payload.Listing? && forall g :: g in existing ==> Lists(o.payload.entries, g)
  }

  /** Neither reply names a guest that does not exist. */
  ghost predicate ListsOnly(status: Outcome, listing: Outcome, vmid: int, existing: set<int>) {
    && (status.Got? ==> vmid in existing)
    && (listing.Got? && Lists(Entries(listing.payload), vmid) ==> vmid in existing)
  }

  /** Under a truthful listing, "not found" means that the guest does not exist. */
  lemma NotFoundMeansAbsent(replies: nat -> Reply, n: nat, preferred: string, vmid: int, existing: set<int>)
    requires ListsAll(ListingOutcome(replies, n, preferred), existing)
    requires Resolved(replies, n, preferred, vmid).NotFound?
    ensures vmid !in existing
  {
    NotFoundIff(replies, n, preferred, vmid);
  }

  /** "Not found" of a guest that exists: the preferred node refuses to tell, and the
      listing comes back as something that is no list. */
  lemma NotFoundThoughPresent(existing: set<int>, vmid: int) returns (replies: nat -> Reply)
    requires vmid in existing
    ensures Resolved(replies, 0, "pve1", vmid).NotFound?
    ensures StatusOutcome(replies, 0) == Refused && ListingOutcome(replies, 0, "pve1") == Got(OtherData)
    ensures !ListsAll(ListingOutcome(replies, 0, "pve1"), existing)
  {
    replies := n => if n == 0 then Status(403) else Data(OtherData);
    assert Deciding(replies, 0, 4) == 0 && Deciding(replies, 1, 4) == 1;
  }

  class Client {
    const replies: nat -> Reply
    const took: nat -> Span
    const late: nat -> Span
    var clock: real
    var sent: nat
    var naps: nat
    ghost var heard: seq<Outcome>

    constructor (replies: nat -> Reply, took: nat -> Span, late: nat -> Span, clock: real)
      ensures this.replies == replies && this.took == took && this.late == late
      ensures this.clock == clock && sent == 0 && heard == []
    {
      this.replies, this.took, this.late, this.clock := replies, took, late, clock;
      sent, naps, heard := 0, 0, [];
    }

    method Send() returns (r: Reply)
      modifies this`clock, this`sent
      ensures r == replies(old(sent)) && sent == old(sent) + 1 && old(clock) <= clock
    {
      r := replies(sent);
      clock := clock + took(sent);
      sent := sent + 1;
    }

    /** asyncio.sleep: never wakes early */
    method Sleep(span: real)
      modifies this`clock, this`naps
      ensures old(clock) + span <= clock
    {
      clock := clock + span + late(naps);
      naps := naps + 1;
    }

    /** _request: up to four attempts; the result is the meaning of the first reply that is
        not retried, or of the fourth. */
    method Request() returns (r: Outcome)
      modifies this
      ensures sent == Deciding(replies, old(sent), 4) + 1 && old(clock) <= clock
      ensures r == Meaning(replies(sent - 1))
      ensures heard == old(heard) + [r]
    {
      var last := NoAnswer;
      var attempt, pause := 0, 0.5;
      while attempt < 4
        invariant 0 <= attempt < 4 && sent == old(sent) + attempt
        invariant old(clock) <= clock && 0.0 < pause && heard == old(heard)
        invariant Deciding(replies, old(sent), 4) == Deciding(replies, sent, 4 - attempt)
      {
        var reply := Send();
        if reply.Data? || reply.Fault? {
          r := Meaning(reply);
          heard := heard + [r];
          return;
        }
        last := reply;
        if attempt == 3 || (reply.Status? && reply.code !in RETRY_STATUSES) {
          break;
        }
        Sleep(if pause < 8.0 then pause else 8.0);
        pause := pause * 2.0;
        attempt := attempt + 1;
      }
      r := if last.Status? && last.code in {401, 403} then Refused else Failed;
      heard := heard + [r];
    }

    /** wait_for_task */
    method WaitForTask(timeout: real, interval: real) returns (r: TaskEnd)
      requires 0.0 <= timeout && 0.0 < interval
      modifies this
      ensures |old(heard)| < |heard| <= |old(heard)| + MostPolls(timeout, interval)
      ensures sent <= old(sent) + 4 * (|heard| - |old(heard)|)
      ensures heard[..|old(heard)|] == old(heard)
      ensures forall i :: |old(heard)| <= i < |heard| - 1 ==> StillRunning(heard[i])
      ensures r.Finished? <==> EndedWell(heard[|heard| - 1])
      ensures r.Finished? ==> r.exit == "OK"
      ensures r.TaskTimeout? <==> StillRunning(heard[|heard| - 1])
      ensures r.TaskTimeout? ==> old(clock) + timeout <= clock
      ensures r.TaskError? ==> heard[|heard| - 1] == Got(Task(true, r.exit)) && r.exit !in {"", "OK"}
      ensures r.TaskFault? ==> !heard[|heard| - 1].Got? || !heard[|heard| - 1].payload.Task?
    {
      var deadline := clock + timeout;
      ghost var n := 0;
      while true
        invariant |heard| == |old(heard)| + n && sent <= old(sent) + 4 * n
        invariant heard[..|old(heard)|] == old(heard)
        invariant forall i :: |old(heard)| <= i < |heard| ==> StillRunning(heard[i])
        invariant old(clock) + Pauses(n, interval) <= clock
        invariant n == 0 || Pauses(n - 1, interval) < timeout
        decreases MostPolls(timeout, interval) - n
      {
        PausesFit(n, timeout, interval);
        var status := Request();
        if !status.Got? {
          return TaskFault(status);
        }
        if !status.payload.Task? {
          return TaskFault(Raised);
        }
        if status.payload.stopped {
          var exit := status.payload.exit;
          if exit != "" && exit != "OK" {
            return TaskError(exit);
          }
          return Finished(if exit != "" then exit else "OK");
        }
        if clock >= deadline {
          return TaskTimeout;
        }
        Sleep(interval);
        n := n + 1;
      }
    }

    /** wait_for_ip: Proxmox errors are waited out, any other exception ends the loop. */
    method WaitForIp(timeout: real, interval: real) returns (r: IpEnd)
      requires 0.0 <= timeout && 0.0 < interval
      modifies this
      ensures |old(heard)| < |heard| <= |old(heard)| + MostPolls(timeout, interval)
      ensures sent <= old(sent) + 4 * (|heard| - |old(heard)|)
      ensures heard[..|old(heard)|] == old(heard)
      ensures forall i :: |old(heard)| <= i < |heard| - 1 ==> !heard[i].Raised? && !HasAddress(heard[i])
      ensures r.Address? <==> HasAddress(heard[|heard| - 1])
      ensures r.Address? ==> heard[|heard| - 1] == Got(Interfaces(Some(r.ip)))
      ensures r.IpFault? <==> heard[|heard| - 1].Raised?
      ensures r.IpTimeout? ==> old(clock) + timeout <= clock
    {
      var deadline := clock + timeout;
      ghost var n := 0;
      while true
        invariant |heard| == |old(heard)| + n && sent <= old(sent) + 4 * n
        invariant heard[..|old(heard)|] == old(heard)
        invariant forall i :: |old(heard)| <= i < |heard| ==> !heard[i].Raised? && !HasAddress(heard[i])
        invariant old(clock) + Pauses(n, interval) <= clock
        invariant n == 0 || Pauses(n - 1, interval) < timeout
        decreases MostPolls(timeout, interval) - n
      {
        PausesFit(n, timeout, interval);
        var data := Request();
        if data.Raised? {
          return IpFault;
        }
        if data.Got? && data.payload.Interfaces? && data.payload.ip.Some? {
          return Address(data.payload.ip.value);
        }
        if clock >= deadline {
          return IpTimeout;
        }
        Sleep(interval);
        n := n + 1;
      }
    }

    /** resolve_vm_node */
    method ResolveVmNode(preferred: string, vmid: int) returns (r: Lookup)
      modifies this
      ensures r == Resolved(replies, old(sent), preferred, vmid)
    {
      if preferred != "" {
        var current := Request();
        if current.Got? {
          return At(preferred);
        }
        if current.Raised? {
          return LookupFault(current);
        }
      }
      var resources := Request();
      if !resources.Got? {
        return LookupFault(resources);
      }
      r := FindVmResource(Entries(resources.payload), vmid);
    }

    /** find_vm_resource in the listing that came back */
    method FindVmResource(entries: seq<Entry>, vmid: int) returns (r: Lookup)
      ensures r == Find(entries, vmid)
    {
      var i := 0;
      while i < |entries|
        invariant 0 <= i <= |entries|
        invariant Find(entries, vmid) == Find(entries[i..], vmid)
      {
        if entries[i].vmid == Some(vmid) {
          return if entries[i].node == "" then WithoutNode else At(entries[i].node);
        }
        assert entries[i..][1..] == entries[i + 1..];
        i := i + 1;
      }
      return NotFound;
    }
  }

  /** With the time-outs that callers use, 600 and 300 seconds, and pauses of three. */
  lemma PollsInUse()
    ensures MostPolls(600.0, 3.0) == 201 && MostPolls(300.0, 3.0) == 101
  {
  }
}
