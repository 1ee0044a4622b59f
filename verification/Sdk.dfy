/** The operator's side of an escalation (firewall.ts, resolveEscalation),
    without interleaving; Protocol cuts it at its read. */
module Sdk {
  import opened Wrappers
  import opened Store

  datatype ResolveError = NoEscalation | AlreadyResolved(status: EscalationStatus)

  /** The guards in the order they are tried. */
  function ResolveGuard(escalations: map<Id, Escalation>, id: Id): Option<ResolveError> {
    if id !in escalations then Some(NoEscalation)
    else if escalations[id].status != Pending then Some(AlreadyResolved(escalations[id].status))
    else None
  }

  class Firewall {
    const store: MemoryStore

    constructor (store: MemoryStore)
      ensures this.store == store
    {
      this.store := store;
    }

    /** Only a pending escalation is resolved; nothing else is written. */
    method ResolveEscalation(id: Id, approves: bool) returns (r: Result<EscalationStatus, ResolveError>)
      requires store.Valid()
      modifies store`escalations
      ensures store.Valid()
      ensures match ResolveGuard(old(store.escalations), id)
        case Some(e) => r == Err(e) && store.escalations == old(store.escalations)
        case None =>
          var status := if approves then Approved else Rejected;
          r == Ok(status) && store.escalations == Resolve(old(store.escalations), id, status)
    {
      hide IndexHolds;
      if id !in store.escalations { return Err(NoEscalation); }
      if store.escalations[id].status != Pending { return Err(AlreadyResolved(store.escalations[id].status)); }
      var status := if approves then Approved else Rejected;
      store.ResolveEscalation(id, status);
      return Ok(status);
    }
  }

  /** A resolution is final: after it every operator is refused, and all other
      escalations stand as they were. */
  lemma ResolutionIsFinal(escalations: map<Id, Escalation>, id: Id, approves: bool)
    requires ResolveGuard(escalations, id).None?
    ensures var status := if approves then Approved else Rejected; var after := Resolve(escalations, id, status);
      && ResolveGuard(after, id) == Some(AlreadyResolved(status))
      && after[id].decisionId == escalations[id].decisionId
      && forall k :: k != id ==> ResolveGuard(after, k) == ResolveGuard(escalations, k)
  {
  }
}
