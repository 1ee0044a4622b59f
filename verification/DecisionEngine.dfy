/** The decision engine (decision-engine.ts). */
module DecisionEngine {
  import opened Wrappers
  import opened Domain
  import Preconditions
  import FreshnessEngine

  function OutcomeOf(o: Outcomes, basis: Staleness): Option<Outcome> {
    match basis
    case Fresh => o.onFresh
    case Aging => o.onAging
    case Stale => o.onStale
    case Unknown => o.onUnknown
    case Invalid => o.onInvalid
  }

  function DefaultOutcome(basis: Staleness): Outcome {
    match basis
    case Fresh => Allow
    case Aging => Allow
    case Stale => Revalidate
    case Unknown => Revalidate
    case Invalid => Deny
  }

  function Configured(policy: Outcomes, defaults: Outcomes, basis: Staleness): Option<Outcome> {
    OrElse(OutcomeOf(policy, basis), OutcomeOf(defaults, basis))
  }

  function OutcomeFor(policy: Outcomes, defaults: Outcomes, basis: Staleness): Outcome {
    GetOr(Configured(policy, defaults, basis), DefaultOutcome(basis))
  }

  function DefaultAgingOutcome(risk: Risk): Outcome {
    if RiskRank(risk) >= RiskRank(High) then Revalidate else Allow
  }

  function StrictOutcome(outcome: Outcome, basis: Staleness): Outcome {
    if basis == Unknown && outcome in {Allow, Revalidate} then Deny
    else if basis == Aging && outcome == Allow then Revalidate
    else outcome
  }

  /** The floor no configuration overrides. */
  function SafetyFloor(outcome: Outcome, basis: Staleness, risk: Option<Risk>): Outcome {
    if basis == Unknown && outcome == Allow && RiskRank(GetOr(risk, Low)) >= RiskRank(Critical) then Revalidate
    else if basis == Invalid && outcome == Allow then Revalidate
    else outcome
  }

  predicate AnyIs(vs: seq<Verdict>, c: Staleness) {
    exists i | 0 <= i < |vs| :: vs[i].staleness == c
  }

  /** No declared dependency is no evidence: unknown. */
  function BasisOf(vs: seq<Verdict>): Staleness {
    if vs == [] then Unknown
    else if AnyIs(vs, Invalid) then Invalid
    else if AnyIs(vs, Unknown) then Unknown
    else if AnyIs(vs, Stale) then Stale
    else if AnyIs(vs, Aging) then Aging
    else Fresh
  }

  predicate PreconditionsPassed(vs: seq<Verdict>) {
    forall i | 0 <= i < |vs| :: Preconditions.AllPassed(vs[i].preconditions)
  }

  function OutcomeOnBasis(policy: Outcomes, defaults: Outcomes, risk: Option<Risk>, basis: Staleness): Outcome {
    if basis == Aging then GetOr(Configured(policy, defaults, Aging), DefaultAgingOutcome(GetOr(risk, Medium)))
    else OutcomeFor(policy, defaults, basis)
  }

  function Decide(
    policy: Outcomes, defaults: Outcomes, risk: Option<Risk>, vs: seq<Verdict>, mode: Mode, revalidated: bool)
    : Outcome
  {
    var evidence := BasisOf(vs);
    var broken := evidence in {Fresh, Aging} && !PreconditionsPassed(vs);
    var basis := if broken then Invalid else evidence;
    var chosen :=
      if broken then SafetyFloor(OutcomeFor(policy, defaults, Invalid), Invalid, risk)
      else OutcomeOnBasis(policy, defaults, risk, evidence);
    var floored := SafetyFloor(chosen, basis, risk);
    var settled := if revalidated && basis == Unknown && floored == Revalidate then Deny else floored;
    if mode == Strict then StrictOutcome(settled, basis) else settled
  }

  // ---- The table ------------------------------------------------------------------

  /** The outcome set in the policy wins over the one set in the defaults, which
      wins over the built-in one. */
  ghost function FirstSet(own: Option<Outcome>, general: Option<Outcome>, builtIn: Outcome): Outcome {
    match (own, general)
    case (Some(o), _) => o
    case (None, Some(o)) => o
    case (None, None) => builtIn
  }

  ghost predicate Has(vs: seq<Verdict>, c: Staleness) {
    exists v :: v in vs && v.staleness == c
  }

  ghost predicate SomeFailed(vs: seq<Verdict>) {
    exists v, r :: v in vs && r in v.preconditions && !r.passed
  }

  lemma HasIsAny(vs: seq<Verdict>, c: Staleness)
    ensures Has(vs, c) <==> AnyIs(vs, c)
  {
    if AnyIs(vs, c) {
      var i :| 0 <= i < |vs| && vs[i].staleness == c;
      assert vs[i] in vs;
    }
  }

  lemma SomeFailedExactly(vs: seq<Verdict>)
    ensures SomeFailed(vs) <==> !PreconditionsPassed(vs)
  {
    if !PreconditionsPassed(vs) {
      var i :| 0 <= i < |vs| && !Preconditions.AllPassed(vs[i].preconditions);
      var k :| 0 <= k < |vs[i].preconditions| && !vs[i].preconditions[k].passed;
      assert vs[i] in vs && vs[i].preconditions[k] in vs[i].preconditions;
    }
  }

  lemma PlainVerdicts(vs: seq<Verdict>)
    ensures forall c :: Has(vs, c) <==> AnyIs(vs, c)
    ensures SomeFailed(vs) <==> !PreconditionsPassed(vs)
  {
    forall c ensures Has(vs, c) <==> AnyIs(vs, c) { HasIsAny(vs, c); }
    SomeFailedExactly(vs);
  }

  /** Proven change, or a failed precondition on evidence of no worse than age,
      is denied unless configured otherwise, and never allowed. */
  lemma InvalidDecided(
    policy: Outcomes, defaults: Outcomes, risk: Option<Risk>, vs: seq<Verdict>, mode: Mode, revalidated: bool)
    requires Has(vs, Invalid) || (SomeFailed(vs) && !Has(vs, Unknown) && !Has(vs, Stale))
    ensures var o := FirstSet(policy.onInvalid, defaults.onInvalid, Deny);
      Decide(policy, defaults, risk, vs, mode, revalidated) == if o == Allow then Revalidate else o
  {
    assert vs != [];
    PlainVerdicts(vs);
    hide Has, SomeFailed, AnyIs, PreconditionsPassed;
  }

  /** No evidence, or none for some dependency, is revalidated unless configured
      otherwise: once only, not in STRICT mode, and never allowed there nor to a
      critical action. */
  lemma UnknownDecided(
    policy: Outcomes, defaults: Outcomes, risk: Option<Risk>, vs: seq<Verdict>, mode: Mode, revalidated: bool)
    requires !Has(vs, Invalid) && (vs == [] || Has(vs, Unknown))
    ensures var o := FirstSet(policy.onUnknown, defaults.onUnknown, Revalidate);
      var again := o == Revalidate || (o == Allow && risk == Some(Critical));
      Decide(policy, defaults, risk, vs, mode, revalidated) ==
        if mode == Strict && (again || o == Allow) then Deny
        else if again then if revalidated then Deny else Revalidate
        else o
  {
    PlainVerdicts(vs);
    hide Has, SomeFailed, AnyIs, PreconditionsPassed;
  }

  /** Stale evidence is revalidated unless configured otherwise. */
  lemma StaleDecided(
    policy: Outcomes, defaults: Outcomes, risk: Option<Risk>, vs: seq<Verdict>, mode: Mode, revalidated: bool)
    requires !Has(vs, Invalid) && !Has(vs, Unknown) && Has(vs, Stale)
    ensures Decide(policy, defaults, risk, vs, mode, revalidated) ==
      FirstSet(policy.onStale, defaults.onStale, Revalidate)
  {
    assert vs != [];
    PlainVerdicts(vs);
    hide Has, SomeFailed, AnyIs, PreconditionsPassed;
  }

  /** Aging evidence, unless configured otherwise, is allowed to actions of at most
      medium risk, which is what an action of no stated risk has, and revalidated
      for riskier ones; in STRICT mode it is never allowed. */
  lemma AgingDecided(
    policy: Outcomes, defaults: Outcomes, risk: Option<Risk>, vs: seq<Verdict>, mode: Mode, revalidated: bool)
    requires !Has(vs, Invalid) && !Has(vs, Unknown) && !Has(vs, Stale) && Has(vs, Aging) && !SomeFailed(vs)
    ensures var risky := risk == Some(High) || risk == Some(Critical);
      var o := FirstSet(policy.onAging, defaults.onAging, if risky then Revalidate else Allow);
      Decide(policy, defaults, risk, vs, mode, revalidated) == if mode == Strict && o == Allow then Revalidate else o
  {
    assert vs != [];
    PlainVerdicts(vs);
    hide Has, SomeFailed, AnyIs, PreconditionsPassed;
  }

  /** Fresh evidence is allowed unless configured otherwise. */
  lemma FreshDecided(
    policy: Outcomes, defaults: Outcomes, risk: Option<Risk>, vs: seq<Verdict>, mode: Mode, revalidated: bool)
    requires vs != [] && (forall v :: v in vs ==> v.staleness == Fresh) && !SomeFailed(vs)
    ensures Decide(policy, defaults, risk, vs, mode, revalidated) ==
      FirstSet(policy.onFresh, defaults.onFresh, Allow)
  {
    PlainVerdicts(vs);
    hide SomeFailed, AnyIs, PreconditionsPassed;
  }

  // ---- When an action is allowed ----------------------------------------------

  /** Configured outcomes under which uncertainty is never allowed. */
  predicate Guarded(policy: Outcomes, defaults: Outcomes) {
    OutcomeFor(policy, defaults, Unknown) != Allow && OutcomeFor(policy, defaults, Stale) != Allow
  }

  /** The evidence an ALLOW must rest on. */
  ghost predicate Sound(vs: seq<Verdict>, mode: Mode) {
    && vs != []
    && (forall v :: v in vs ==> v.staleness == Fresh || (v.staleness == Aging && mode != Strict))
    && (forall v :: v in vs ==> Preconditions.AllPassed(v.preconditions))
  }

  /** Sound evidence is configured to be allowed, or left at its default. */
  ghost predicate GoodAllowed(policy: Outcomes, defaults: Outcomes, risk: Option<Risk>, aging: bool) {
    if aging then
      var risky := risk == Some(High) || risk == Some(Critical);
      FirstSet(policy.onAging, defaults.onAging, if risky then Revalidate else Allow) == Allow
    else FirstSet(policy.onFresh, defaults.onFresh, Allow) == Allow
  }

  lemma BasisIsWorst(vs: seq<Verdict>)
    requires vs != []
    ensures forall v :: v in vs ==> FreshnessEngine.Severity(v.staleness) <= FreshnessEngine.Severity(BasisOf(vs))
    ensures exists v :: v in vs && v.staleness == BasisOf(vs)
  {
    var b := BasisOf(vs);
    forall v | v in vs ensures FreshnessEngine.Severity(v.staleness) <= FreshnessEngine.Severity(b) {
      var i :| 0 <= i < |vs| && vs[i] == v;
      assert AnyIs(vs, v.staleness);
    }
    assert vs[0] in vs;
    if b != Fresh {
      var i :| 0 <= i < |vs| && vs[i].staleness == b;
      assert vs[i] in vs;
    }
  }

  /** With guarded outcomes an action is allowed exactly when the evidence is
      sound and the outcome set for its worst class, or its default, is to allow. */
  lemma AllowedExactly(
    policy: Outcomes, defaults: Outcomes, risk: Option<Risk>, vs: seq<Verdict>, mode: Mode, revalidated: bool)
    requires Guarded(policy, defaults)
    ensures Decide(policy, defaults, risk, vs, mode, revalidated) == Allow <==>
      Sound(vs, mode) && GoodAllowed(policy, defaults, risk, Has(vs, Aging))
  {
    HasIsAny(vs, Aging);
    hide Has;
    if vs != [] {
      BasisIsWorst(vs);
      if PreconditionsPassed(vs) {
        forall v | v in vs ensures Preconditions.AllPassed(v.preconditions) {
          var i :| 0 <= i < |vs| && vs[i] == v;
        }
      } else {
        var i :| 0 <= i < |vs| && !Preconditions.AllPassed(vs[i].preconditions);
        assert vs[i] in vs;
      }
    }
  }

  /** Under any configuration at all: proven change is never allowed, a failed
      precondition on fresh or aging evidence is never allowed, and unknown state is never
      allowed to a critical action or in strict mode. */
  lemma HardFloor(
    policy: Outcomes, defaults: Outcomes, risk: Option<Risk>, vs: seq<Verdict>, mode: Mode, revalidated: bool)
    requires Decide(policy, defaults, risk, vs, mode, revalidated) == Allow
    ensures BasisOf(vs) != Invalid
    ensures BasisOf(vs) in {Fresh, Aging} ==> PreconditionsPassed(vs)
    ensures BasisOf(vs) == Unknown ==> risk != Some(Critical) && mode != Strict
    ensures BasisOf(vs) == Aging ==> mode != Strict
  {
  }

  /** Every precondition failure or proven change the verdicts tell of. */
  predicate Broken(vs: seq<Verdict>) {
    !PreconditionsPassed(vs) || BasisOf(vs) == Invalid
  }

  /** The basis a decision on broken evidence is taken on: preconditions are
      looked at on fresh and aging evidence only. */
  function BrokenBasis(vs: seq<Verdict>): Staleness {
    if BasisOf(vs) in {Fresh, Aging} then Invalid else BasisOf(vs)
  }

  /** Stale or unknown state that the configuration allows. */
  predicate AllowsUncertain(policy: Outcomes, defaults: Outcomes, risk: Option<Risk>, mode: Mode, basis: Staleness) {
    && basis in {Stale, Unknown} && OutcomeFor(policy, defaults, basis) == Allow
    && (basis == Unknown ==> risk != Some(Critical) && mode != Strict)
  }

  /** When broken evidence is allowed: exactly when it is stale or unknown as
      well and the outcome configured for that is to allow and survives the
      floor and strict mode. The failed precondition plays no part. */
  lemma BrokenAllowedExactly(
    policy: Outcomes, defaults: Outcomes, risk: Option<Risk>, vs: seq<Verdict>, mode: Mode, revalidated: bool)
    requires Broken(vs)
    ensures Decide(policy, defaults, risk, vs, mode, revalidated) == Allow <==>
      AllowsUncertain(policy, defaults, risk, mode, BasisOf(vs))
  {
  }

  /** When broken evidence escalates, which an approval then turns into ALLOW:
      exactly when escalation is the outcome configured for its basis. */
  lemma BrokenEscalatesExactly(
    policy: Outcomes, defaults: Outcomes, risk: Option<Risk>, vs: seq<Verdict>, mode: Mode, revalidated: bool)
    requires Broken(vs)
    ensures Decide(policy, defaults, risk, vs, mode, revalidated) == Escalate <==>
      OutcomeFor(policy, defaults, BrokenBasis(vs)) == Escalate
  {
  }

  /** A failed precondition allowed to a critical action in STRICT mode. */
  lemma FailedPreconditionAllowed(ref: Ref, p: Precondition) returns (policy: Outcomes, vs: seq<Verdict>)
    ensures !PreconditionsPassed(vs) && Decide(policy, policy, Some(Critical), vs, Strict, false) == Allow
  {
    policy := Outcomes(None, None, Some(Allow), None, None);
    var v := Verdict(ref, Stale, true, None, None, None, None, [PreconditionResult(p, false)]);
    vs := [v];
    assert vs[0] == v && AnyIs(vs, Stale) && !AnyIs(vs, Invalid) && !AnyIs(vs, Unknown);
    assert v.preconditions[0] == PreconditionResult(p, false);
  }

  /** A failed precondition on fresh evidence that escalates, in STRICT mode. */
  lemma FailedPreconditionEscalated(ref: Ref, p: Precondition) returns (policy: Outcomes, vs: seq<Verdict>)
    ensures BasisOf(vs) == Fresh && !PreconditionsPassed(vs)
    ensures Decide(policy, policy, Some(Critical), vs, Strict, false) == Escalate
  {
    policy := Outcomes(None, None, None, None, Some(Escalate));
    var v := Verdict(ref, Fresh, true, None, None, None, None, [PreconditionResult(p, false)]);
    vs := [v];
    assert vs[0] == v && v.preconditions[0] == PreconditionResult(p, false);
  }

  /** The guard is needed: without it the named evidence is allowed. */
  lemma UnguardedAllows(policy: Outcomes, defaults: Outcomes, revalidated: bool)
    requires !Guarded(policy, defaults)
    ensures exists vs :: !Sound(vs, Enforce) && Decide(policy, defaults, Some(Low), vs, Enforce, revalidated) == Allow
  {
    if OutcomeFor(policy, defaults, Unknown) == Allow {
      assert !Sound([], Enforce);
      assert Decide(policy, defaults, Some(Low), [], Enforce, revalidated) == Allow;
    } else {
      var v := Verdict(Ref([], [], []), Stale, true, None, None, None, None, []);
      assert [v][0] == v && v in [v];
      assert AnyIs([v], Stale) && !AnyIs([v], Invalid) && !AnyIs([v], Unknown);
      assert !Sound([v], Enforce);
      assert Decide(policy, defaults, Some(Low), [v], Enforce, revalidated) == Allow;
    }
  }

  /** A revalidated decision never asks to revalidate on unknown state again. */
  lemma RevalidationSettles(policy: Outcomes, defaults: Outcomes, risk: Option<Risk>, vs: seq<Verdict>, mode: Mode)
    requires BasisOf(vs) == Unknown
    ensures Decide(policy, defaults, risk, vs, mode, true) != Revalidate
  {
  }
}
