/** The protocol seen from outside: the history of the events that calls on
    one store and one provider leave, in the order of their atomic steps, the
    rules each event obeys, and what the rules imply for every history. That
    every run of the protocol obeys them is proved in ProtocolClaims. */
module History {
  import opened Wrappers
  import opened Text
  import Provider
  import opened Store

  type RunId = nat

  datatype Event =
    /** The escalation was read, or the action id generated, and the call went on. */
    | Admitted(run: RunId, id: Id, approved: bool)
    /** The consumed-authorization guard let the call pass. */
    | Looked(run: RunId, id: Id, spent: bool, permitted: bool)
    /** The call was held for approval. */
    | Held(run: RunId, id: Id)
    | Claimed(run: RunId, id: Id)
    /** The pre-execution re-check blocked the call that holds the authorization. */
    | Froze(run: RunId, id: Id)
    | Started(run: RunId, id: Id)
    /** The provider applied the executor's mutation to `before`. */
    | Swapped(run: RunId, id: Id, key: Text, before: Provider.Resource, after: Provider.Resource)
    | Consumed(run: RunId, id: Id)
    /** An operator resolved the escalation. */
    | Resolved(id: Id, approved: bool)

  predicate By(e: Event, r: RunId) {
    !e.Resolved? && e.run == r
  }

  // ---- What a history says ----------------------------------------------------------

  /** How far one run has come. */
  datatype Phase =
    | Unseen | Open(id: Id) | Ready(id: Id) | Closed(id: Id)
    | Holding(id: Id) | Stuck(id: Id) | Running(id: Id) | Done(id: Id)

  function Moved(p: Phase, e: Event): Phase {
    match e
    case Admitted(_, id, _) => Open(id)
    case Looked(_, id, _, _) => Ready(id)
    case Held(_, id) => Closed(id)
    case Claimed(_, id) => Holding(id)
    case Froze(_, id) => Stuck(id)
    case Started(_, id) => Running(id)
    case Consumed(_, id) => Done(id)
    case _ => p
  }

  function PhaseOf(tape: seq<Event>, r: RunId): Phase {
    if tape == [] then Unseen
    else
      var e, p := tape[|tape| - 1], PhaseOf(tape[..|tape| - 1], r);
      if By(e, r) then Moved(p, e) else p
  }

  /** The authorization slot of an action id. */
  datatype Slot = Empty | HeldBy(run: RunId) | Spent

  function SlotAfter(s: Slot, e: Event, id: Id): Slot {
    if e.Claimed? && e.id == id then HeldBy(e.run)
    else if e.Consumed? && e.id == id then Spent
    else s
  }

  function SlotOf(tape: seq<Event>, id: Id): Slot {
    if tape == [] then Empty else SlotAfter(SlotOf(tape[..|tape| - 1], id), tape[|tape| - 1], id)
  }

  function StatusAfter(s: Option<EscalationStatus>, e: Event, id: Id): Option<EscalationStatus> {
    if e.Held? && e.id == id then Some(Pending)
    else if e.Resolved? && e.id == id then Some(if e.approved then Approved else Rejected)
    else s
  }

  function StatusOf(tape: seq<Event>, id: Id): Option<EscalationStatus> {
    if tape == [] then None else StatusAfter(StatusOf(tape[..|tape| - 1], id), tape[|tape| - 1], id)
  }

  /** How often the provider applied a mutation of this run. */
  function SwapsBy(tape: seq<Event>, r: RunId): nat {
    if tape == [] then 0
    else
      var e := tape[|tape| - 1];
      SwapsBy(tape[..|tape| - 1], r) + if e.Swapped? && e.run == r then 1 else 0
  }

  // ---- The rules ----------------------------------------------------------------------

  predicate Legal(tape: seq<Event>, e: Event) {
    match e
    case Admitted(r, id, approved) =>
      PhaseOf(tape, r) == Unseen && StatusOf(tape, id) == if approved then Some(Approved) else None
    case Looked(r, id, spent, permitted) =>
      PhaseOf(tape, r) == Open(id) && spent == (SlotOf(tape, id) == Spent) && (spent ==> permitted)
    case Held(r, id) => PhaseOf(tape, r) == Ready(id)
    case Claimed(r, id) => PhaseOf(tape, r) == Ready(id) && !SlotOf(tape, id).HeldBy?
    case Froze(r, id) => PhaseOf(tape, r) == Holding(id)
    case Started(r, id) => PhaseOf(tape, r) == Holding(id)
    case Swapped(r, id, _, _, _) => PhaseOf(tape, r) in {Running(id), Done(id)} && SwapsBy(tape, r) == 0
    case Consumed(r, id) => PhaseOf(tape, r) == Running(id)
    case Resolved(id, _) => StatusOf(tape, id).Some?
  }

  predicate Lawful(tape: seq<Event>) {
    tape == [] || (Lawful(tape[..|tape| - 1]) && Legal(tape[..|tape| - 1], tape[|tape| - 1]))
  }

  /** Reading a history that has just grown. */
  lemma Grow(tape: seq<Event>, e: Event)
    ensures Lawful(tape + [e]) <==> Lawful(tape) && Legal(tape, e)
    ensures forall r :: PhaseOf(tape + [e], r) == if By(e, r) then Moved(PhaseOf(tape, r), e) else PhaseOf(tape, r)
    ensures forall id :: SlotOf(tape + [e], id) == SlotAfter(SlotOf(tape, id), e, id)
    ensures forall id :: StatusOf(tape + [e], id) == StatusAfter(StatusOf(tape, id), e, id)
    ensures forall r :: SwapsBy(tape + [e], r) == SwapsBy(tape, r) + if e.Swapped? && e.run == r then 1 else 0
  {
    assert (tape + [e])[..|tape|] == tape;
  }

  /** The same, inside a longer history. */
  lemma At(tape: seq<Event>, i: nat)
    requires i < |tape| && Lawful(tape)
    ensures Lawful(tape[..i]) && Legal(tape[..i], tape[i])
    ensures forall r ::
      var before := PhaseOf(tape[..i], r);
        PhaseOf(tape[..i + 1], r) == if By(tape[i], r) then Moved(before, tape[i]) else before
    ensures forall id :: SlotOf(tape[..i + 1], id) == SlotAfter(SlotOf(tape[..i], id), tape[i], id)
    ensures forall id :: StatusOf(tape[..i + 1], id) == StatusAfter(StatusOf(tape[..i], id), tape[i], id)
  {
    hide PhaseOf, SlotOf, StatusOf, SwapsBy, Legal;
    LawfulPrefix(tape, i + 1);
    assert tape[..i + 1] == tape[..i] + [tape[i]];
    Grow(tape[..i], tape[i]);
  }

  lemma {:induction false} LawfulPrefix(tape: seq<Event>, n: nat)
    requires Lawful(tape) && n <= |tape|
    ensures Lawful(tape[..n])
  {
    if n < |tape| {
      LawfulPrefix(tape[..|tape| - 1], n);
      assert tape[..|tape| - 1][..n] == tape[..n];
    } else {
      assert tape[..n] == tape;
    }
  }

  /** A run only moves forward. */
  function Rank(p: Phase): nat {
    match p
    case Unseen => 0
    case Open(_) => 1
    case Ready(_) => 2
    case Closed(_) => 3
    case Holding(_) => 3
    case Stuck(_) => 4
    case Running(_) => 4
    case Done(_) => 5
  }

  lemma {:induction false} RankGrows(tape: seq<Event>, i: nat, j: nat, r: RunId)
    requires Lawful(tape) && i <= j <= |tape|
    ensures Rank(PhaseOf(tape[..i], r)) <= Rank(PhaseOf(tape[..j], r))
  {
    hide PhaseOf, SlotOf, StatusOf, SwapsBy;
    if i < j {
      RankGrows(tape, i, j - 1, r);
      At(tape, j - 1);
    }
  }

  /** Of every kind of own step but a swap a run takes at most one. */
  lemma StepsOnce(tape: seq<Event>, i: nat, j: nat)
    requires Lawful(tape) && i < j < |tape| && !tape[i].Resolved? && !tape[i].Swapped? && By(tape[j], tape[i].run)
    requires Rank(Moved(Unseen, tape[i])) == Rank(Moved(Unseen, tape[j]))
    ensures tape[j].Swapped?
  {
    hide PhaseOf, SlotOf, StatusOf, SwapsBy;
    At(tape, i);
    At(tape, j);
    RankGrows(tape, i + 1, j, tape[i].run);
  }

  /** No run starts its executor twice. */
  lemma StartsOnce(tape: seq<Event>, i: nat, j: nat)
    requires Lawful(tape) && i < j < |tape| && tape[i].Started? && tape[j].Started?
    ensures tape[i].run != tape[j].run
  {
    if tape[i].run == tape[j].run { StepsOnce(tape, i, j); }
  }

  // ---- Mutual exclusion -------------------------------------------------------------------

  /** Between its claim and its consumption. */
  predicate Owns(p: Phase, id: Id) {
    p == Holding(id) || p == Stuck(id) || p == Running(id)
  }

  /** The slot names exactly the run that is between claim and consumption. */
  lemma {:induction false} HolderExactly(tape: seq<Event>, r: RunId, id: Id)
    requires Lawful(tape)
    ensures SlotOf(tape, id) == HeldBy(r) <==> Owns(PhaseOf(tape, r), id)
  {
    if tape != [] {
      var n := |tape| - 1;
      HolderExactly(tape[..n], r, id);
      if tape[n].Claimed? || tape[n].Consumed? { HolderExactly(tape[..n], tape[n].run, id); }
    }
  }

  lemma Nothing(r: RunId)
    ensures PhaseOf([], r) == Unseen
  {
  }

  /** Owning an id is having claimed it and not consumed it. */
  lemma {:induction false} OwnsExactly(tape: seq<Event>, r: RunId, id: Id)
    requires Lawful(tape)
    ensures Owns(PhaseOf(tape, r), id) || PhaseOf(tape, r) == Done(id) <==> Claimed(r, id) in tape
    ensures PhaseOf(tape, r) == Done(id) <==> Consumed(r, id) in tape
  {
    hide PhaseOf, SlotOf, StatusOf, SwapsBy, Lawful;
    if tape == [] {
      Nothing(r);
    } else {
      var n := |tape| - 1;
      At(tape, n);
      assert tape[..n + 1] == tape;
      OwnsExactly(tape[..n], r, id);
      hide Rank;
      assert tape == tape[..n] + [tape[n]];
    }
  }

  /** At most one run per action id is between its claim and its consumption. */
  lemma MutualExclusion(tape: seq<Event>, a: RunId, b: RunId, id: Id)
    requires Lawful(tape) && Owns(PhaseOf(tape, a), id) && Owns(PhaseOf(tape, b), id)
    ensures a == b
  {
    HolderExactly(tape, a, id);
    HolderExactly(tape, b, id);
  }

  /** A slot held at `i` and not held by the same run at `j` was consumed in between. */
  lemma {:induction false} HeldUntilConsumed(tape: seq<Event>, i: nat, j: nat, r: RunId, id: Id) returns (k: nat)
    requires Lawful(tape) && i <= j <= |tape|
    requires SlotOf(tape[..i], id) == HeldBy(r) && SlotOf(tape[..j], id) != HeldBy(r)
    ensures i <= k < j && tape[k] == Consumed(r, id)
    decreases j
  {
    hide PhaseOf, SlotOf, StatusOf, SwapsBy;
    At(tape, j - 1);
    HolderExactly(tape[..j - 1], r, id);
    if SlotOf(tape[..j - 1], id) == HeldBy(r) {
      k := j - 1;
      if tape[k].Consumed? { HolderExactly(tape[..j - 1], tape[k].run, id); }
    } else {
      k := HeldUntilConsumed(tape, i, j - 1, r, id);
    }
  }

  /** Claims and consumptions alternate: a second claim comes only after the
      first claimer consumed. */
  lemma ClaimsAlternate(tape: seq<Event>, i: nat, j: nat, id: Id) returns (k: nat)
    requires Lawful(tape) && i < j < |tape|
    requires tape[i].Claimed? && tape[i].id == id && tape[j].Claimed? && tape[j].id == id
    ensures i < k < j && tape[k] == Consumed(tape[i].run, id)
  {
    hide PhaseOf, SlotOf, StatusOf, SwapsBy;
    At(tape, i);
    At(tape, j);
    k := HeldUntilConsumed(tape, i + 1, j, tape[i].run, id);
  }

  /** Where a run entered the phase it has left or is in. */
  lemma {:induction false} ClaimOf(tape: seq<Event>, n: nat, r: RunId, id: Id) returns (c: nat)
    requires Lawful(tape) && n <= |tape| && SlotOf(tape[..n], id) == HeldBy(r)
    ensures c < n && tape[c] == Claimed(r, id)
    ensures forall k :: c < k < n && tape[k].id == id ==> !tape[k].Claimed? && !tape[k].Consumed?
  {
    hide PhaseOf, StatusOf, SwapsBy, Legal;
    if n > 0 {
      At(tape, n - 1);
      if tape[n - 1] == Claimed(r, id) { c := n - 1; } else { c := ClaimOf(tape, n - 1, r, id); }
    }
  }

  /** Every start belongs to the holder: its own claim precedes it, with no
      claim or consumption on the id in between. */
  lemma StartsBelongToHolder(tape: seq<Event>, j: nat) returns (c: nat)
    requires Lawful(tape) && j < |tape| && tape[j].Started?
    ensures c < j && tape[c] == Claimed(tape[j].run, tape[j].id)
    ensures forall k :: c < k < j && tape[k].id == tape[j].id ==> !tape[k].Claimed? && !tape[k].Consumed?
  {
    At(tape, j);
    HolderExactly(tape[..j], tape[j].run, tape[j].id);
    hide PhaseOf, SlotOf, StatusOf, SwapsBy, Legal;
    c := ClaimOf(tape, j, tape[j].run, tape[j].id);
  }

  // ---- A blocked re-check --------------------------------------------------------------------

  lemma {:induction false} StaysStuck(tape: seq<Event>, i: nat, j: nat, r: RunId, id: Id)
    requires Lawful(tape) && i <= j <= |tape| && PhaseOf(tape[..i], r) == Stuck(id)
    ensures PhaseOf(tape[..j], r) == Stuck(id)
  {
    hide PhaseOf, SlotOf, StatusOf, SwapsBy;
    if i < j {
      StaysStuck(tape, i, j - 1, r, id);
      At(tape, j - 1);
    }
  }

  /** A re-check that blocks freezes the id: nothing is ever claimed, started
      or consumed under it again. */
  lemma FrozenForGood(tape: seq<Event>, i: nat, j: nat)
    requires Lawful(tape) && i < j < |tape| && tape[i].Froze? && tape[j].id == tape[i].id
    ensures !tape[j].Claimed? && !tape[j].Started? && !tape[j].Consumed?
  {
    var r, id := tape[i].run, tape[i].id;
    At(tape, i);
    StaysStuck(tape, i + 1, j, r, id);
    At(tape, j);
    HolderExactly(tape[..j], r, id);
    if tape[j].Started? || tape[j].Consumed? { MutualExclusion(tape[..j], r, tape[j].run, id); }
  }

  // ---- Starts per action id ----------------------------------------------------------------------

  lemma {:induction false} LookOf(tape: seq<Event>, n: nat, r: RunId, id: Id) returns (g: nat)
    requires Lawful(tape) && n <= |tape| && PhaseOf(tape[..n], r) == Ready(id)
    ensures g < n && tape[g].Looked? && tape[g].run == r && tape[g].id == id
    ensures forall k :: g < k < n ==> tape[k] != Claimed(r, id)
  {
    hide SlotOf, StatusOf, SwapsBy;
    if n > 0 {
      At(tape, n - 1);
      if By(tape[n - 1], r) && tape[n - 1].Looked? { g := n - 1; } else { g := LookOf(tape, n - 1, r, id); }
    }
  }

  /** From a slot not spent to a spent one, something was consumed. */
  lemma {:induction false} SpentByConsumption(tape: seq<Event>, g: nat, c: nat, id: Id) returns (k: nat)
    requires Lawful(tape) && g <= c <= |tape|
    requires SlotOf(tape[..g], id) != Spent && SlotOf(tape[..c], id) == Spent
    ensures g <= k < c && tape[k].Consumed? && tape[k].id == id
    decreases c
  {
    hide PhaseOf, StatusOf, SwapsBy, Legal;
    At(tape, c - 1);
    if tape[c - 1].Consumed? && tape[c - 1].id == id {
      k := c - 1;
    } else {
      k := SpentByConsumption(tape, g, c - 1, id);
    }
  }

  /** A run is done only by consuming. */
  lemma {:induction false} DoneByConsumption(tape: seq<Event>, i: nat, j: nat, r: RunId, id: Id) returns (k: nat)
    requires Lawful(tape) && i <= j <= |tape|
    requires PhaseOf(tape[..i], r) == Running(id) && Rank(PhaseOf(tape[..j], r)) > Rank(Running(id))
    ensures i <= k < j && tape[k] == Consumed(r, id)
    decreases j
  {
    hide SlotOf, StatusOf, SwapsBy, PhaseOf;
    At(tape, j - 1);
    RankGrows(tape, i, j - 1, r);
    if Rank(PhaseOf(tape[..j - 1], r)) > Rank(Running(id)) {
      k := DoneByConsumption(tape, i, j - 1, r, id);
    } else {
      StaysRunning(tape, i, j - 1, r, id);
      k := j - 1;
    }
  }

  lemma {:induction false} StaysRunning(tape: seq<Event>, i: nat, j: nat, r: RunId, id: Id)
    requires Lawful(tape) && i <= j <= |tape|
    requires PhaseOf(tape[..i], r) == Running(id) && Rank(PhaseOf(tape[..j], r)) <= Rank(Running(id))
    ensures PhaseOf(tape[..j], r) == Running(id)
  {
    hide SlotOf, StatusOf, SwapsBy, PhaseOf;
    if i < j {
      RankGrows(tape, j - 1, j, r);
      StaysRunning(tape, i, j - 1, r, id);
      At(tape, j - 1);
    }
  }

  lemma {:induction false} ClaimedStays(tape: seq<Event>, i: nat, j: nat, id: Id)
    requires Lawful(tape) && i <= j <= |tape| && SlotOf(tape[..i], id) != Empty
    ensures SlotOf(tape[..j], id) != Empty
  {
    if i < j {
      ClaimedStays(tape, i, j - 1, id);
      At(tape, j - 1);
    }
  }

  /** The call's look, or what happened between it and the call's claim, tells
      of an authorization already consumed. */
  ghost predicate Reuses(tape: seq<Event>, g: nat, c: nat, id: Id)
    requires g < |tape| && c <= |tape| && tape[g].Looked?
  {
    tape[g].spent || exists k :: g < k < c && tape[k].Consumed? && tape[k].id == id
  }

  /** The start at `j` was looked up at `g` and claimed at `c`. */
  predicate StartOf(tape: seq<Event>, g: nat, c: nat, j: nat) {
    && g < c < j < |tape| && tape[j].Started? && tape[c] == Claimed(tape[j].run, tape[j].id)
    && tape[g].Looked? && tape[g].run == tape[j].run && tape[g].id == tape[j].id
  }

  ghost predicate StartedBefore(tape: seq<Event>, j: nat, id: Id) {
    exists i :: 0 <= i < j && i < |tape| && tape[i].Started? && tape[i].id == id
  }

  /** Every start has its look and its claim, and only one of each. */
  lemma LookAndClaim(tape: seq<Event>, j: nat) returns (g: nat, c: nat)
    requires Lawful(tape) && j < |tape| && tape[j].Started?
    ensures StartOf(tape, g, c, j)
    ensures forall k :: c < k < j && tape[k].id == tape[j].id ==> !tape[k].Claimed? && !tape[k].Consumed?
    ensures forall g': nat, c': nat :: StartOf(tape, g', c', j) ==> g' == g && c' == c
  {
    c := StartsBelongToHolder(tape, j);
    At(tape, c);
    g := LookOf(tape, c, tape[j].run, tape[j].id);
    hide PhaseOf, SlotOf, StatusOf, SwapsBy, Lawful;
    forall g': nat, c': nat | StartOf(tape, g', c', j) ensures g' == g && c' == c {
      if g' < g { StepsOnce(tape, g', g); }
      if g < g' { StepsOnce(tape, g, g'); }
      if c' < c { StepsOnce(tape, c', c); }
      if c < c' { StepsOnce(tape, c, c'); }
    }
  }

  /** What a second start under one action id takes, and what is enough for
      it: a start has another before it exactly when its call retried a spent
      authorization, or another call consumed between that call's own look at
      the authorization and its claim. */
  lemma SecondStart(tape: seq<Event>, g: nat, c: nat, j: nat)
    requires Lawful(tape) && StartOf(tape, g, c, j)
    ensures StartedBefore(tape, j, tape[j].id) <==> Reuses(tape, g, c, tape[j].id)
    ensures tape[g].spent ==> tape[g].permitted
    ensures forall k :: g < k < c && tape[k].Consumed? && tape[k].id == tape[j].id ==> tape[k].run != tape[j].run
  {
    hide PhaseOf, SlotOf, StatusOf, SwapsBy, Lawful;
    var id := tape[j].id;
    At(tape, g);
    if StartedBefore(tape, j, id) {
      var i :| 0 <= i < j && tape[i].Started? && tape[i].id == id;
      StartReuses(tape, i, g, c, j);
    }
    if tape[g].spent {
      var k := SpentFrom(tape, g, id);
      var i := ConsumedWasStarted(tape, k);
    }
    forall k | g < k < c && tape[k].Consumed? && tape[k].id == id
      ensures tape[k].run != tape[j].run && StartedBefore(tape, j, id)
    {
      var i := ConsumedWasStarted(tape, k);
      At(tape, k);
      At(tape, c);
      RankGrows(tape, k + 1, c, tape[k].run);
    }
  }

  lemma StartReuses(tape: seq<Event>, i: nat, g: nat, c: nat, j: nat)
    requires Lawful(tape) && StartOf(tape, g, c, j) && i < j && tape[i].Started? && tape[i].id == tape[j].id
    ensures Reuses(tape, g, c, tape[j].id)
  {
    hide PhaseOf, SlotOf, StatusOf, SwapsBy, Lawful;
    var g', c' := LookAndClaim(tape, j);
    At(tape, g);
    if !tape[g].spent {
      SpentBefore(tape, i, j, c);
      var k := SpentByConsumption(tape, g, c, tape[j].id);
      assert k != g;
    }
  }

  /** A consumption follows its own run's start. */
  lemma ConsumedWasStarted(tape: seq<Event>, k: nat) returns (i: nat)
    requires Lawful(tape) && k < |tape| && tape[k].Consumed?
    ensures i < k && tape[i] == Started(tape[k].run, tape[k].id)
  {
    At(tape, k);
    i := StartFrom(tape, k, tape[k].run, tape[k].id);
  }

  lemma {:induction false} StartFrom(tape: seq<Event>, n: nat, r: RunId, id: Id) returns (i: nat)
    requires Lawful(tape) && n <= |tape| && PhaseOf(tape[..n], r) == Running(id)
    ensures i < n && tape[i] == Started(r, id)
  {
    hide SlotOf, StatusOf, SwapsBy;
    if n > 0 {
      At(tape, n - 1);
      if tape[n - 1] == Started(r, id) { i := n - 1; } else { i := StartFrom(tape, n - 1, r, id); }
    }
  }

  /** A spent slot was consumed. */
  lemma SpentFrom(tape: seq<Event>, n: nat, id: Id) returns (k: nat)
    requires Lawful(tape) && n <= |tape| && SlotOf(tape[..n], id) == Spent
    ensures k < n && tape[k].Consumed? && tape[k].id == id
  {
    assert tape[..0] == [];
    k := SpentByConsumption(tape, 0, n, id);
  }

  ghost predicate StartsAtMostOnce(tape: seq<Event>, id: Id) {
    forall i, j :: 0 <= i < j < |tape| && tape[i].Started? && tape[i].id == id && tape[j].id == id ==> !tape[j].Started?
  }

  ghost predicate NoReuse(tape: seq<Event>, id: Id) {
    forall g: nat, c: nat, j: nat :: StartOf(tape, g, c, j) && tape[j].id == id ==> !Reuses(tape, g, c, id)
  }

  /** The executor starts at most once under an action id exactly when no call
      that started looked at a spent authorization, or had another consumed
      between its look and its claim. */
  lemma AtMostOneStartExactly(tape: seq<Event>, id: Id)
    requires Lawful(tape)
    ensures StartsAtMostOnce(tape, id) <==> NoReuse(tape, id)
  {
    hide Lawful, Reuses;
    if StartsAtMostOnce(tape, id) {
      forall g: nat, c: nat, j: nat | StartOf(tape, g, c, j) && tape[j].id == id ensures !Reuses(tape, g, c, id) {
        SecondStart(tape, g, c, j);
      }
    }
    if NoReuse(tape, id) {
      forall i, j | 0 <= i < j < |tape| && tape[i].Started? && tape[i].id == id && tape[j].id == id
        ensures !tape[j].Started?
      {
        if tape[j].Started? {
          var g, c := LookAndClaim(tape, j);
          SecondStart(tape, g, c, j);
        }
      }
    }
  }

  /** The claim behind a second start finds the slot spent. */
  lemma SpentBefore(tape: seq<Event>, i: nat, j: nat, c: nat)
    requires Lawful(tape) && c < j < |tape| && i < j && tape[i].Started? && tape[j].Started? && tape[i].id == tape[j].id
    requires tape[c] == Claimed(tape[j].run, tape[j].id)
    requires forall k :: c < k < j && tape[k].id == tape[j].id ==> !tape[k].Claimed? && !tape[k].Consumed?
    ensures SlotOf(tape[..c], tape[j].id) == Spent
  {
    var id := tape[j].id;
    var first := StartsBelongToHolder(tape, i);
    StartsOnce(tape, i, j);
    At(tape, first);
    At(tape, c);
    assert first < c;
    ClaimedStays(tape, first + 1, c, id);
  }

  // ---- Calls that do not overlap ---------------------------------------------------------------------

  /** What a call does itself; the executor's mutation may land after its deadline. */
  predicate OwnStep(e: Event, r: RunId) {
    By(e, r) && !e.Swapped?
  }

  /** While a call on the id is under way no other call on the id takes a step
      and no operator resolves its escalation. */
  ghost predicate OneAtATime(tape: seq<Event>, id: Id) {
    forall i, k, j, r :: 0 <= i < k < j < |tape| && OwnStep(tape[i], r) && OwnStep(tape[j], r) ==>
      tape[i].id == id && tape[k].id == id ==> By(tape[k], r) || tape[k].Swapped?
  }

  lemma NoneBetween(tape: seq<Event>, id: Id, i: nat, k: nat, j: nat, r: RunId)
    requires OneAtATime(tape, id) && i < k < j < |tape|
    requires OwnStep(tape[i], r) && OwnStep(tape[j], r) && tape[i].id == id && tape[k].id == id
    ensures By(tape[k], r) || tape[k].Swapped?
  {
  }

  ghost predicate NoRetry(tape: seq<Event>, id: Id) {
    forall g :: 0 <= g < |tape| && tape[g].Looked? && tape[g].id == id ==> !(tape[g].spent && tape[g].permitted)
  }

  /** Without overlap and without a permitted retry, the executor starts at
      most once under an action id. */
  lemma AtMostOneStart(tape: seq<Event>, i: nat, j: nat)
    requires Lawful(tape) && i < j < |tape| && tape[i].Started? && tape[i].id == tape[j].id
    requires OneAtATime(tape, tape[i].id) && NoRetry(tape, tape[i].id)
    ensures !tape[j].Started?
  {
    hide Lawful, Reuses;
    if tape[j].Started? {
      var g, c := LookAndClaim(tape, j);
      SecondStart(tape, g, c, j);
      var k := ReusedBy(tape, g, c, tape[j].id);
      NoneBetween(tape, tape[j].id, g, k, c, tape[j].run);
    }
  }

  lemma ReusedBy(tape: seq<Event>, g: nat, c: nat, id: Id) returns (k: nat)
    requires g < |tape| && c <= |tape| && tape[g].Looked? && Reuses(tape, g, c, id) && !tape[g].spent
    ensures g < k < c && tape[k].Consumed? && tape[k].id == id
  {
    k :| g < k < c && tape[k].Consumed? && tape[k].id == id;
  }

  // ---- Escalations -----------------------------------------------------------------------------------------

  lemma {:induction false} GuardOf(tape: seq<Event>, n: nat, r: RunId, id: Id) returns (g: nat)
    requires Lawful(tape) && n <= |tape|
    requires PhaseOf(tape[..n], r) in {Open(id), Ready(id), Holding(id)}
    ensures g < n && tape[g].Admitted? && tape[g].run == r && tape[g].id == id
    ensures forall k :: g < k < n ==> tape[k] != Held(r, id)
  {
    hide SlotOf, StatusOf, SwapsBy;
    if n > 0 {
      At(tape, n - 1);
      if By(tape[n - 1], r) && tape[n - 1].Admitted? { g := n - 1; } else { g := GuardOf(tape, n - 1, r, id); }
    }
  }

  predicate OnHold(s: Option<EscalationStatus>) {
    s == Some(Pending) || s == Some(Rejected)
  }

  predicate WritesStatus(e: Event, id: Id) {
    (e.Held? || e.Resolved?) && e.id == id
  }

  /** The call was held, or its escalation rejected. */
  predicate PutsOnHold(e: Event, id: Id) {
    WritesStatus(e, id) && (e.Resolved? ==> !e.approved)
  }

  /** Nothing has written the escalation since `k`. */
  ghost predicate LastWrite(tape: seq<Event>, k: nat, j: nat, id: Id) {
    k < j <= |tape| && WritesStatus(tape[k], id) && forall l :: k < l < j ==> !WritesStatus(tape[l], id)
  }

  lemma {:induction false} StatusIsLastWritten(tape: seq<Event>, k: nat, j: nat, id: Id)
    requires Lawful(tape) && LastWrite(tape, k, j, id)
    ensures StatusOf(tape[..j], id) == StatusAfter(None, tape[k], id)
  {
    hide PhaseOf, SlotOf, StatusOf, SwapsBy, Lawful;
    At(tape, j - 1);
    assert tape[..j - 1 + 1] == tape[..j];
    assert StatusOf(tape[..j], id) == StatusAfter(StatusOf(tape[..j - 1], id), tape[j - 1], id);
    if k < j - 1 {
      assert !WritesStatus(tape[j - 1], id);
      StatusIsLastWritten(tape, k, j - 1, id);
    }
  }

  lemma {:induction false} FindLastWrite(tape: seq<Event>, j: nat, id: Id) returns (k: nat)
    requires Lawful(tape) && j <= |tape| && StatusOf(tape[..j], id) != None
    ensures LastWrite(tape, k, j, id)
  {
    hide PhaseOf, SlotOf, SwapsBy, Legal;
    if j > 0 {
      At(tape, j - 1);
      if WritesStatus(tape[j - 1], id) { k := j - 1; } else { k := FindLastWrite(tape, j - 1, id); }
    }
  }

  /** The hold the status at `j` stems from came after the guard at `g`, from someone else. */
  ghost predicate HeldSince(tape: seq<Event>, g: nat, j: nat, r: RunId, id: Id) {
    exists k :: g < k && LastWrite(tape, k, j, id) && PutsOnHold(tape[k], id) && !By(tape[k], r)
  }

  /** When an executor starts under a pending or rejected escalation: exactly
      when, after its call's own guard had read the escalation, the last thing
      written to it was a hold by another call or a rejection. */
  lemma StartWhileHeld(tape: seq<Event>, g: nat, j: nat)
    requires Lawful(tape) && j < |tape| && tape[j].Started?
    requires g < j && tape[g].Admitted? && tape[g].run == tape[j].run && tape[g].id == tape[j].id
    ensures OnHold(StatusOf(tape[..j], tape[j].id)) <==> HeldSince(tape, g, j, tape[j].run, tape[j].id)
  {
    hide PhaseOf, SlotOf, StatusOf, SwapsBy, Lawful;
    var r, id := tape[j].run, tape[j].id;
    At(tape, g);
    At(tape, j);
    if OnHold(StatusOf(tape[..j], id)) {
      var k := FindLastWrite(tape, j, id);
      StatusIsLastWritten(tape, k, j, id);
      if k < g { StatusIsLastWritten(tape, k, g, id); }
      assert k != g;
      var g' := GuardOf(tape, j, r, id);
      if g' < g { StepsOnce(tape, g', g); }
      if g < g' { StepsOnce(tape, g, g'); }
      assert tape[k] != Held(r, id);
    }
    if HeldSince(tape, g, j, r, id) {
      var k :| g < k && LastWrite(tape, k, j, id) && PutsOnHold(tape[k], id) && !By(tape[k], r);
      StatusIsLastWritten(tape, k, j, id);
    }
  }

  /** Without overlap nothing starts under a pending or rejected escalation. */
  lemma NeverStartsWhileHeld(tape: seq<Event>, j: nat)
    requires Lawful(tape) && j < |tape| && tape[j].Started? && OneAtATime(tape, tape[j].id)
    ensures !OnHold(StatusOf(tape[..j], tape[j].id))
  {
    var r, id := tape[j].run, tape[j].id;
    At(tape, j);
    var g := GuardOf(tape, j, r, id);
    StartWhileHeld(tape, g, j);
  }
}
