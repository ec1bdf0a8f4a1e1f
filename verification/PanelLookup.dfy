/** What the engine takes for granted about "not found", drawn from what Proxmox replies. */
module PanelLookup {
  import opened Panel
  import opened Polling

  /** How the outcome of resolve_vm_node reaches destroy_existing_vm. */
  function AnswerOf(r: Lookup): Answer {
    match r
    case At(_) => Ok
    case NotFound => Missing
    case WithoutNode => ProxmoxFailure
    case LookupFault(cause) => if cause.Raised? then OtherFailure else ProxmoxFailure
  }

  /** Replies that are truthful about the panel's guests, however many of them fail, give
      an answer that the step system allows; and the step system's answer "missing" is
      given only by a lookup that ends in "not found". */
  lemma TruthfulLookup(l: Local, replies: nat -> Reply, n: nat, node: string)
    requires l.at.Resolve? && l.vm.vmid.Some?
    requires ListsAll(ListingOutcome(replies, n, node), l.guests.Keys)
    requires ListsOnly(StatusOutcome(replies, n), ListingOutcome(replies, n, node), l.vm.vmid.value, l.guests.Keys)
    ensures CanAnswer(l, AnswerOf(Resolved(replies, n, node, l.vm.vmid.value)))
    ensures var r := Resolved(replies, n, node, l.vm.vmid.value);
      && (AnswerOf(r) == Missing <==> r == NotFound) && (AnswerOf(r) == Ok <==> r.At?)
      && (r == NotFound ==> l.vm.vmid.value !in l.guests)
  {
    NotFoundIff(replies, n, node, l.vm.vmid.value);
  }

  /** The truthfulness is needed: replies that are not give the answer "missing" while the
      guest exists, which the step system does not allow. */
  lemma UntruthfulLookup(l: Local) returns (replies: nat -> Reply)
    requires l.at.Resolve? && l.vm.vmid.Some? && l.vm.vmid.value in l.guests
    ensures var a := AnswerOf(Resolved(replies, 0, "pve1", l.vm.vmid.value));
      a.Missing? && !CanAnswer(l, a)
  {
    replies := NotFoundThoughPresent(l.guests.Keys, l.vm.vmid.value);
  }
}
