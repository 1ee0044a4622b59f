/** The in-memory store (memory-store.ts): the operations the execution
    protocol relies on as functions, and the class that updates its indexes. */
module Store {
  import opened Wrappers
  import opened Text
  import Hashing
  import opened Domain
  import opened Audit

  /** Identifiers are opaque tokens. */
  type Id = nat

  // ---- Authorizations and escalations -----------------------------------------------

  /** `holder` stands for the decision id, which no two claims share. */
  datatype Authorization = Authorization(
    holder: Id, expiresAt: int, fingerprint: Text, expectedState: Option<seq<Hashing.StateEntry>>, consumed: bool)

  predicate Live(auths: map<Id, Authorization>, id: Id) {
    id in auths && !auths[id].consumed
  }

  /** The atomic check-and-set: refused while a live authorization exists. */
  function Claim(auths: map<Id, Authorization>, id: Id, a: Authorization): (map<Id, Authorization>, bool) {
    if Live(auths, id) then (auths, false) else (auths[id := a], true)
  }

  function Consume(auths: map<Id, Authorization>, id: Id): map<Id, Authorization> {
    if id in auths then auths[id := auths[id].(consumed := true)] else auths
  }

  datatype EscalationStatus = Pending | Approved | Rejected
  datatype Escalation = Escalation(decisionId: Id, status: EscalationStatus)

  function Resolve(escalations: map<Id, Escalation>, id: Id, status: EscalationStatus): map<Id, Escalation> {
    if id in escalations then escalations[id := escalations[id].(status := status)] else escalations
  }

  /** Keep-first: the intent first recorded for an id stays. */
  function KeepFirst(actions: map<Id, Intent>, id: Id, intent: Intent): map<Id, Intent> {
    if id in actions then actions else actions[id := intent]
  }

  /** What of a decision record the protocol reads back. */
  datatype DecisionRecord = DecisionRecord(
    id: Id, actionId: Id, outcome: Outcome, tool: Text, operation: Text, target: Option<Text>, refs: seq<Ref>)

  // ---- The decision index --------------------------------------------------------------

  function OfAction(saved: seq<DecisionRecord>, actionId: Id): seq<DecisionRecord> {
    if saved == [] then []
    else
      var last := saved[|saved| - 1];
      OfAction(saved[..|saved| - 1], actionId) + if last.actionId == actionId then [last] else []
  }

  function IdsOf(ds: seq<DecisionRecord>): seq<Id> {
    seq(|ds|, i requires 0 <= i < |ds| => ds[i].id)
  }

  function Listed(byAction: map<Id, seq<Id>>, actionId: Id): seq<Id> {
    if actionId in byAction then byAction[actionId] else []
  }

  ghost predicate Distinct(saved: seq<DecisionRecord>) {
    forall i, j :: 0 <= i < j < |saved| ==> saved[i].id != saved[j].id
  }

  /** The indexes tell exactly what was saved. */
  ghost predicate IndexHolds(
    saved: seq<DecisionRecord>, decisions: map<Id, DecisionRecord>, byAction: map<Id, seq<Id>>) {
    && Distinct(saved)
    && (forall d :: d in saved ==> d.id in decisions && decisions[d.id] == d)
    && (forall k :: k in decisions ==> decisions[k] in saved && decisions[k].id == k)
    && (forall a :: Listed(byAction, a) == IdsOf(OfAction(saved, a)))
  }

  lemma {:induction false} OfActionMembers(saved: seq<DecisionRecord>, a: Id)
    ensures forall d :: d in OfAction(saved, a) <==> d in saved && d.actionId == a
  {
    if saved != [] {
      OfActionMembers(saved[..|saved| - 1], a);
      assert saved == saved[..|saved| - 1] + [saved[|saved| - 1]];
    }
  }

  /** Reading the index of an action finds its decisions, in save order. */
  lemma IndexReads(saved: seq<DecisionRecord>, decisions: map<Id, DecisionRecord>, byAction: map<Id, seq<Id>>, a: Id)
    requires IndexHolds(saved, decisions, byAction)
    ensures var ds, ids := OfAction(saved, a), Listed(byAction, a);
      |ids| == |ds| && forall i :: 0 <= i < |ids| ==> ids[i] in decisions && decisions[ids[i]] == ds[i]
  {
    var ds := OfAction(saved, a);
    OfActionMembers(saved, a);
    hide OfAction, Distinct, Listed;
    forall i | 0 <= i < |ds| ensures ds[i].id in decisions && decisions[ds[i].id] == ds[i] {
      assert ds[i] in ds;
    }
  }

  lemma IndexGrows(
    saved: seq<DecisionRecord>, decisions: map<Id, DecisionRecord>, byAction: map<Id, seq<Id>>, d: DecisionRecord)
    requires IndexHolds(saved, decisions, byAction) && d.id !in decisions
    ensures IndexHolds(saved + [d], decisions[d.id := d], byAction[d.actionId := Listed(byAction, d.actionId) + [d.id]])
  {
    hide OfAction, IdsOf, Distinct;
    var byAction' := byAction[d.actionId := Listed(byAction, d.actionId) + [d.id]];
    forall a ensures Listed(byAction', a) == IdsOf(OfAction(saved + [d], a)) {
      OfActionGrows(saved, d, a);
      assert Listed(byAction, a) == IdsOf(OfAction(saved, a));
    }
    hide Listed;
    DistinctGrows(saved, d, decisions);
    RecordsGrow(saved, d, decisions);
  }

  lemma RecordsGrow(saved: seq<DecisionRecord>, d: DecisionRecord, decisions: map<Id, DecisionRecord>)
    requires forall x :: x in saved ==> x.id in decisions && decisions[x.id] == x
    requires forall k :: k in decisions ==> decisions[k] in saved && decisions[k].id == k
    requires d.id !in decisions
    ensures var more := decisions[d.id := d];
      && (forall x :: x in saved + [d] ==> x.id in more && more[x.id] == x)
      && (forall k :: k in more ==> more[k] in saved + [d] && more[k].id == k)
  {
  }

  lemma DistinctGrows(saved: seq<DecisionRecord>, d: DecisionRecord, decisions: map<Id, DecisionRecord>)
    requires Distinct(saved) && d.id !in decisions && forall x :: x in saved ==> x.id in decisions
    ensures Distinct(saved + [d])
  {
    forall i | 0 <= i < |saved| ensures saved[i].id != d.id {
      assert saved[i] in saved;
    }
  }

  lemma OfActionGrows(saved: seq<DecisionRecord>, d: DecisionRecord, a: Id)
    ensures IdsOf(OfAction(saved + [d], a)) == IdsOf(OfAction(saved, a)) + if a == d.actionId then [d.id] else []
  {
    assert (saved + [d])[..|saved|] == saved;
  }

  // ---- Paging the ledger --------------------------------------------------------------

  function Below(records: seq<AuditRecord>, before: Option<nat>): seq<AuditRecord> {
    if records == [] then []
    else
      var last := records[|records| - 1];
      Below(records[..|records| - 1], before) + if before.None? || last.number < before.value then [last] else []
  }

  function Reverse<T>(xs: seq<T>): seq<T> {
    if xs == [] then [] else Reverse(xs[1..]) + [xs[0]]
  }

  /** `slice(-limit)`: the last `limit`; zero keeps all, a negative drops from the front. */
  function SliceFromEnd<T>(xs: seq<T>, limit: int): seq<T> {
    if limit > 0 then xs[if limit < |xs| then |xs| - limit else 0..]
    else xs[if -limit < |xs| then -limit else |xs|..]
  }

  function Page(records: seq<AuditRecord>, limit: int, before: Option<nat>): seq<AuditRecord> {
    Reverse(SliceFromEnd(Below(records, before), limit))
  }

  ghost predicate Numbered(records: seq<AuditRecord>) {
    forall i :: 0 <= i < |records| ==> records[i].number == i + 1
  }

  lemma {:induction false} BelowIsPrefix(records: seq<AuditRecord>, before: Option<nat>)
    requires Numbered(records)
    ensures Below(records, before) ==
      records[..if before.None? || before.value > |records| then |records|
        else if before.value == 0 then 0 else before.value - 1]
  {
    if records != [] { BelowIsPrefix(records[..|records| - 1], before); }
  }

  lemma {:induction false} ReverseAt<T>(xs: seq<T>)
    ensures |Reverse(xs)| == |xs|
    ensures forall i :: 0 <= i < |xs| ==> Reverse(xs)[i] == xs[|xs| - 1 - i]
  {
    if xs != [] { ReverseAt(xs[1..]); }
  }

  lemma {:induction false} ReverseAppend<T>(a: seq<T>, b: seq<T>)
    ensures Reverse(a + b) == Reverse(b) + Reverse(a)
  {
    if a == [] {
      assert a + b == b;
    } else {
      assert (a + b)[1..] == a[1..] + b;
      ReverseAppend(a[1..], b);
    }
  }

  /** Where a page over the first `n` records starts. */
  function PageStart(n: nat, limit: int): (k: nat)
    ensures k <= n
  {
    if limit > 0 then if limit < n then n - limit else 0
    else if -limit < n then -limit else n
  }

  lemma PageOf(records: seq<AuditRecord>, limit: int, n: nat)
    requires Numbered(records) && n <= |records|
    ensures Page(records, limit, Some(n + 1)) == Reverse(records[PageStart(n, limit)..n])
    ensures n == |records| ==> Page(records, limit, None) == Reverse(records[PageStart(n, limit)..n])
  {
    BelowIsPrefix(records, Some(n + 1));
    BelowIsPrefix(records, None);
    assert records[..n][PageStart(n, limit)..] == records[PageStart(n, limit)..n];
    assert n == |records| ==> records[..n] == records;
  }

  /** Pages read one after another, each before the oldest record seen so far. */
  function PagesFrom(records: seq<AuditRecord>, limit: int, n: nat): seq<AuditRecord>
    requires Numbered(records) && n <= |records|
    decreases n
  {
    var page := Page(records, limit, Some(n + 1));
    PageOf(records, limit, n);
    ReverseAt(records[PageStart(n, limit)..n]);
    if page == [] then [] else
      assert page[|page| - 1] == records[PageStart(n, limit)];
      page + PagesFrom(records, limit, page[|page| - 1].number - 1)
  }

  lemma PagesStep(records: seq<AuditRecord>, limit: int, n: nat)
    requires Numbered(records) && n <= |records|
    ensures var k := PageStart(n, limit);
      PagesFrom(records, limit, n) == if k == n then [] else Reverse(records[k..n]) + PagesFrom(records, limit, k)
  {
    hide Reverse, Page;
    var k := PageStart(n, limit);
    var page := Page(records, limit, Some(n + 1));
    PageOf(records, limit, n);
    ReverseAt(records[k..n]);
    if k < n {
      assert page[|page| - 1] == records[k];
      assert page[|page| - 1].number - 1 == k;
    }
  }

  lemma {:induction false} PagesCover(records: seq<AuditRecord>, limit: int, n: nat)
    requires Numbered(records) && n <= |records| && limit >= 0
    ensures PagesFrom(records, limit, n) == Reverse(records[..n])
    decreases n
  {
    hide PagesFrom, Reverse;
    var k := PageStart(n, limit);
    PagesStep(records, limit, n);
    if n == 0 {
      ReverseAt(records[..0]);
    } else {
      PagesCover(records, limit, k);
      assert records[..n] == records[..k] + records[k..n];
      ReverseAppend(records[..k], records[k..n]);
    }
  }

  lemma PagesSkip(records: seq<AuditRecord>, limit: int)
    requires Numbered(records) && records != [] && limit < 0
    ensures |PagesFrom(records, limit, |records|)| < |records|
  {
    hide PagesFrom, Reverse;
    var n := |records|;
    var k := PageStart(n, limit);
    PagesStep(records, limit, n);
    PagesStep(records, limit, k);
    ReverseAt(records[k..n]);
  }

  /** Paging a produced ledger by the oldest number seen yields every record
      exactly once, newest first, unless the limit is negative. */
  lemma PagingIsComplete(h: Hashing.Hash, records: seq<AuditRecord>, limit: int)
    requires Produced(h, records)
    ensures Numbered(records)
    ensures PagesFrom(records, limit, |records|) == Reverse(records) <==> limit >= 0 || records == []
  {
    ProducedVerifies(h, records);
    assert records[..|records|] == records;
    ReverseAt(records);
    if limit >= 0 {
      PagesCover(records, limit, |records|);
    } else if records != [] {
      PagesSkip(records, limit);
    } else {
      PageOf(records, limit, 0);
    }
  }

  // ---- The class ----------------------------------------------------------------------------

  class MemoryStore {
    var actions: map<Id, Intent>
    var decisions: map<Id, DecisionRecord>
    var decisionsByAction: map<Id, seq<Id>>
    var authorizations: map<Id, Authorization>
    var escalations: map<Id, Escalation>
    var audit: seq<AuditRecord>
    var auditSeq: nat
    /** Every decision saved, in save order. */
    ghost var saved: seq<DecisionRecord>

    ghost predicate Valid()
      reads this
    {
      IndexHolds(saved, decisions, decisionsByAction) && auditSeq == |audit|
    }

    constructor ()
      ensures Valid() && saved == [] && audit == [] && authorizations == map[] && escalations == map[] &&
        actions == map[]
    {
      actions, decisions, decisionsByAction := map[], map[], map[];
      authorizations, escalations := map[], map[];
      audit, auditSeq, saved := [], 0, [];
    }

    method SaveAction(id: Id, intent: Intent)
      requires Valid()
      modifies this`actions
      ensures Valid() && actions == KeepFirst(old(actions), id, intent)
    {
      if id !in actions { actions := actions[id := intent]; }
    }

    /** False where the source throws on a repeated id. */
    method SaveDecision(d: DecisionRecord) returns (ok: bool)
      requires Valid()
      modifies this`decisions, this`decisionsByAction, this`saved
      ensures Valid()
      ensures ok <==> d.id !in old(decisions)
      ensures saved == if ok then old(saved) + [d] else old(saved)
    {
      hide IndexHolds;
      if d.id in decisions { return false; }
      IndexGrows(saved, decisions, decisionsByAction, d);
      decisions := decisions[d.id := d];
      decisionsByAction := decisionsByAction[d.actionId := Listed(decisionsByAction, d.actionId) + [d.id]];
      saved := saved + [d];
      return true;
    }

    /** The last decision saved for the action. */
    method GetLatestDecision(actionId: Id) returns (d: Option<DecisionRecord>)
      requires Valid()
      ensures var ds := OfAction(saved, actionId);
        d == if ds == [] then None else Some(ds[|ds| - 1])
    {
      hide IndexHolds, OfAction;
      IndexReads(saved, decisions, decisionsByAction, actionId);
      var list := Listed(decisionsByAction, actionId);
      if list == [] { return None; }
      return Some(decisions[list[|list| - 1]]);
    }

    /** All decisions of the action, in save order. */
    method ListDecisions(actionId: Id) returns (ds: seq<DecisionRecord>)
      requires Valid()
      ensures ds == OfAction(saved, actionId)
    {
      hide IndexHolds, OfAction;
      IndexReads(saved, decisions, decisionsByAction, actionId);
      var list := Listed(decisionsByAction, actionId);
      ghost var expected := OfAction(saved, actionId);
      ds := [];
      for i := 0 to |list|
        invariant ds == expected[..i]
      {
        assert list[i] in decisions && decisions[list[i]] == expected[i];
        ds := ds + [decisions[list[i]]];
      }
    }

    method ClaimAuthorization(id: Id, a: Authorization) returns (claimed: bool)
      requires Valid()
      modifies this`authorizations
      ensures Valid() && (authorizations, claimed) == Claim(old(authorizations), id, a)
    {
      if id in authorizations && !authorizations[id].consumed { return false; }
      authorizations := authorizations[id := a];
      return true;
    }

    method ConsumeAuthorization(id: Id)
      requires Valid()
      modifies this`authorizations
      ensures Valid() && authorizations == Consume(old(authorizations), id)
    {
      if id in authorizations {
        authorizations := authorizations[id := authorizations[id].(consumed := true)];
      }
    }

    method SaveEscalation(id: Id, e: Escalation)
      requires Valid()
      modifies this`escalations
      ensures Valid() && escalations == old(escalations)[id := e]
    {
      escalations := escalations[id := e];
    }

    method ResolveEscalation(id: Id, status: EscalationStatus)
      requires Valid()
      modifies this`escalations
      ensures Valid() && escalations == Resolve(old(escalations), id, status)
    {
      if id in escalations {
        escalations := escalations[id := escalations[id].(status := status)];
      }
    }

    method AppendAudit(h: Hashing.Hash, body: AuditBody) returns (record: AuditRecord)
      requires Valid()
      modifies this`audit, this`auditSeq
      ensures Valid() && record == NextRecord(h, old(audit), body) && audit == old(audit) + [record]
      ensures old(Produced(h, audit)) ==> Produced(h, audit)
    {
      var prev := if audit == [] then GENESIS else audit[|audit| - 1].recordHash;
      auditSeq := auditSeq + 1;
      record := AuditRecord(auditSeq, body, prev, h(ChainInput(prev, body)));
      ghost var before := audit;
      audit := audit + [record];
      assert audit[..|audit| - 1] == before;
    }

    method ListAuditRecords(limit: int, before: Option<nat>) returns (page: seq<AuditRecord>)
      requires Valid()
      ensures page == Page(audit, limit, before)
    {
      var kept := [];
      for i := 0 to |audit|
        invariant kept == Below(audit[..i], before)
      {
        assert audit[..i + 1][..i] == audit[..i];
        if before.None? || audit[i].number < before.value { kept := kept + [audit[i]]; }
      }
      assert audit[..|audit|] == audit;
      page := Reverse(SliceFromEnd(kept, limit));
    }
  }
}
