/** Policy resolution (policy-resolver.ts). */
module Policies {
  import opened Wrappers
  import opened Text
  import opened Domain
  import Glob

  predicate Fits(pattern: Option<Text>, value: Text) {
    pattern.Some? ==> Glob.GlobMatches(pattern.value, value)
  }

  /** The risk matcher is a floor. */
  predicate MatchesPolicy(p: Policy, i: Intent, baseRisk: Risk) {
    && Fits(p.matcher.tool, i.tool)
    && Fits(p.matcher.operation, i.operation)
    && Fits(p.matcher.target, GetOr(i.target, []))
    && (p.matcher.risk.Some? ==> RiskRank(p.matcher.risk.value) <= RiskRank(baseRisk))
  }

  function Specificity(p: Policy): nat {
    (if p.matcher.tool.Some? then 1 else 0) + (if p.matcher.operation.Some? then 2 else 0) +
    (if p.matcher.target.Some? then 1 else 0) + (if p.matcher.risk.Some? then 1 else 0)
  }

  /** The first risk rule whose pattern fits the operation. */
  function FirstRule(rules: seq<RiskRule>, operation: Text): Option<Risk> {
    if rules == [] then None
    else if Glob.GlobMatches(rules[0].pattern, operation) then Some(rules[0].risk)
    else FirstRule(rules[1..], operation)
  }

  function DeriveRisk(i: Intent, d: Option<RiskDefaults>): Risk {
    if i.risk.Some? then i.risk.value
    else if d.Some? then GetOr(FirstRule(d.value.rules, i.operation), d.value.fallback)
    else Medium
  }

  function SyntheticDefault(d: GlobalDefaults): Policy {
    Policy(GLOBAL_DEFAULT, Matcher(None, None, None, None), None, d.freshness, [], [], d.outcomes, d.execution)
  }

  /** "global-default" */
  const GLOBAL_DEFAULT: Text := [103, 108, 111, 98, 97, 108, 45, 100, 101, 102, 97, 117, 108, 116]

  datatype Resolution = Resolution(policy: Policy, risk: Risk)

  /** An intent names a policy when the name is present and not empty. */
  predicate NamesPolicy(i: Intent) {
    i.policyName.Some? && i.policyName.value != []
  }

  function FindNamed(ps: seq<Policy>, name: Text): Option<Policy> {
    if ps == [] then None else if ps[0].name == name then Some(ps[0]) else FindNamed(ps[1..], name)
  }

  /** The index the matching loop settles on after the first `n` policies. */
  function BestIndex(ps: seq<Policy>, i: Intent, base: Risk, n: nat): (k: Option<nat>)
    requires n <= |ps|
    ensures k.Some? ==> k.value < n
  {
    if n == 0 then None
    else
      var k := BestIndex(ps, i, base, n - 1);
      if MatchesPolicy(ps[n - 1], i, base) && (k.None? || Specificity(ps[n - 1]) > Specificity(ps[k.value]))
      then Some(n - 1) else k
  }

  function Raised(base: Risk, p: Policy): Resolution {
    Resolution(p, MaxRisk(base, GetOr(p.declaredRisk, base)))
  }

  /** The policy and final risk for an intent. */
  function Resolve(ps: seq<Policy>, d: GlobalDefaults, risks: Option<RiskDefaults>, i: Intent): Resolution {
    var base := DeriveRisk(i, risks);
    if NamesPolicy(i) then
      var named := FindNamed(ps, i.policyName.value);
      if named.Some? then Raised(base, named.value) else Resolution(SyntheticDefault(d), base)
    else
      var k := BestIndex(ps, i, base, |ps|);
      if k.Some? then Raised(base, ps[k.value]) else Resolution(SyntheticDefault(d), base)
  }

  /** The resolver as written, with its best-so-far loop. */
  method ResolvePolicy(ps: seq<Policy>, d: GlobalDefaults, risks: Option<RiskDefaults>, i: Intent)
    returns (r: Resolution)
    ensures r == Resolve(ps, d, risks, i)
  {
    var base := DeriveRisk(i, risks);
    if NamesPolicy(i) {
      var named := FindNamed(ps, i.policyName.value);
      if named.Some? { return Raised(base, named.value); }
      return Resolution(SyntheticDefault(d), base);
    }
    var best: Option<Policy> := None;
    var bestScore: int := -1;
    for n := 0 to |ps|
      invariant best.Some? <==> BestIndex(ps, i, base, n).Some?
      invariant best.Some? ==> best.value == ps[BestIndex(ps, i, base, n).value]
      invariant bestScore == if best.Some? then Specificity(best.value) else -1
    {
      if MatchesPolicy(ps[n], i, base) {
        var score := Specificity(ps[n]);
        if score > bestScore {
          best := Some(ps[n]);
          bestScore := score;
        }
      }
    }
    if best.Some? { return Raised(base, best.value); }
    return Resolution(SyntheticDefault(d), base);
  }

  // ---- What matching and specificity mean ---------------------------------------

  /** The matcher's fields, each a demand when it is set. */
  datatype Demand = OnTool | OnOperation | OnTarget | OnRisk

  ghost predicate Makes(m: Matcher, d: Demand) {
    match d
    case OnTool => m.tool.Some?
    case OnOperation => m.operation.Some?
    case OnTarget => m.target.Some?
    case OnRisk => m.risk.Some?
  }

  ghost predicate Meets(i: Intent, base: Risk, m: Matcher, d: Demand)
    requires Makes(m, d)
  {
    match d
    case OnTool => Glob.GlobMatches(m.tool.value, i.tool)
    case OnOperation => Glob.GlobMatches(m.operation.value, i.operation)
    case OnTarget => Glob.GlobMatches(m.target.value, if i.target.Some? then i.target.value else [])
    case OnRisk => AtLeast(base, m.risk.value)
  }

  /** From the lowest risk to the highest. */
  const BY_RISK := [Low, Medium, High, Critical]

  ghost predicate AtLeast(a: Risk, b: Risk) {
    exists i, j :: 0 <= j <= i < 4 && BY_RISK[i] == a && BY_RISK[j] == b
  }

  lemma AtLeastRanks(a: Risk, b: Risk)
    ensures AtLeast(a, b) <==> RiskRank(a) >= RiskRank(b)
  {
    assert forall r: Risk :: BY_RISK[RiskRank(r)] == r;
    assert forall i :: 0 <= i < 4 ==> RiskRank(BY_RISK[i]) == i;
  }

  /** A policy matches an intent that meets all its demands; the risk demanded is
      a floor. */
  lemma MatchesExactly(p: Policy, i: Intent, base: Risk)
    ensures MatchesPolicy(p, i, base) <==> forall d :: Makes(p.matcher, d) ==> Meets(i, base, p.matcher, d)
  {
    var m := p.matcher;
    if m.risk.Some? { AtLeastRanks(base, m.risk.value); }
    hide AtLeast, RiskRank;
    if forall d :: Makes(m, d) ==> Meets(i, base, m, d) {
      assert m.tool.Some? ==> Meets(i, base, m, OnTool);
      assert m.operation.Some? ==> Meets(i, base, m, OnOperation);
      assert m.target.Some? ==> Meets(i, base, m, OnTarget);
      assert m.risk.Some? ==> Meets(i, base, m, OnRisk);
    }
  }

  function WithMatcher(p: Policy, m: Matcher): Policy {
    p.(matcher := m)
  }

  /** A policy without demands is not specific at all; each demand makes it more
      so by one, that on the operation by two. */
  lemma SpecificityExactly(p: Policy, tool: Text, operation: Text, target: Text, risk: Risk)
    ensures Specificity(WithMatcher(p, Matcher(None, None, None, None))) == 0
    ensures var m := p.matcher;
      && (m.tool.None? ==> Specificity(WithMatcher(p, m.(tool := Some(tool)))) == Specificity(p) + 1)
      && (m.operation.None? ==> Specificity(WithMatcher(p, m.(operation := Some(operation)))) == Specificity(p) + 2)
      && (m.target.None? ==> Specificity(WithMatcher(p, m.(target := Some(target)))) == Specificity(p) + 1)
      && (m.risk.None? ==> Specificity(WithMatcher(p, m.(risk := Some(risk)))) == Specificity(p) + 1)
  {
  }

  ghost predicate FirstRuleFitting(rules: seq<RiskRule>, operation: Text, k: nat) {
    && k < |rules| && Glob.GlobMatches(rules[k].pattern, operation)
    && forall j :: 0 <= j < k ==> !Glob.GlobMatches(rules[j].pattern, operation)
  }

  /** The risk an intent states counts; one that states none has that of the first
      rule fitting its operation, or the fallback, or medium risk without rules. */
  ghost predicate RiskSays(i: Intent, d: Option<RiskDefaults>, r: Risk) {
    if i.risk.Some? then r == i.risk.value
    else if d.None? then r == Medium
    else
      || (exists k: nat :: FirstRuleFitting(d.value.rules, i.operation, k) && r == d.value.rules[k].risk)
      || ((forall k: nat :: !FirstRuleFitting(d.value.rules, i.operation, k)) && r == d.value.fallback)
  }

  lemma {:induction false} FirstRuleIs(rules: seq<RiskRule>, operation: Text) returns (k: nat)
    ensures k <= |rules| && forall j :: 0 <= j < k ==> !Glob.GlobMatches(rules[j].pattern, operation)
    ensures k < |rules| ==> Glob.GlobMatches(rules[k].pattern, operation)
    ensures FirstRule(rules, operation) == if k < |rules| then Some(rules[k].risk) else None
  {
    k := 0;
    if rules != [] && !Glob.GlobMatches(rules[0].pattern, operation) {
      var l := FirstRuleIs(rules[1..], operation);
      k := l + 1;
      assert forall j :: 0 < j < |rules| ==> rules[1..][j - 1] == rules[j];
    }
  }

  lemma DeriveRiskExactly(i: Intent, d: Option<RiskDefaults>, r: Risk)
    ensures DeriveRisk(i, d) == r <==> RiskSays(i, d, r)
  {
    if i.risk.None? && d.Some? {
      var k := FirstRuleIs(d.value.rules, i.operation);
      hide FirstRule;
      assert k < |d.value.rules| ==>
        forall l: nat :: FirstRuleFitting(d.value.rules, i.operation, l) ==> l == k;
    }
  }

  // ---- What resolution promises ------------------------------------------------

  /** Policy `k` is the earliest declared among the most specific that match. */
  ghost predicate Winner(ps: seq<Policy>, i: Intent, base: Risk, k: nat) {
    && k < |ps| && MatchesPolicy(ps[k], i, base)
    && forall j :: 0 <= j < |ps| && MatchesPolicy(ps[j], i, base) ==>
      Specificity(ps[j]) <= Specificity(ps[k]) && (j < k ==> Specificity(ps[j]) < Specificity(ps[k]))
  }

  lemma {:induction false} BestIndexWins(ps: seq<Policy>, i: Intent, base: Risk, n: nat)
    requires n <= |ps|
    ensures var k := BestIndex(ps, i, base, n);
      && (k.Some? ==> Winner(ps[..n], i, base, k.value))
      && (k.None? ==> forall j :: 0 <= j < n ==> !MatchesPolicy(ps[j], i, base))
  {
    if n > 0 {
      BestIndexWins(ps, i, base, n - 1);
      var k := BestIndex(ps, i, base, n);
      if k.Some? {
        forall j | 0 <= j < n && MatchesPolicy(ps[j], i, base)
          ensures Specificity(ps[j]) <= Specificity(ps[k.value])
          ensures j < k.value ==> Specificity(ps[j]) < Specificity(ps[k.value])
        {
          if j < n - 1 { assert ps[..n - 1][j] == ps[j]; }
        }
      }
    }
  }

  lemma WinnerIsUnique(ps: seq<Policy>, i: Intent, base: Risk, k: nat, l: nat)
    requires Winner(ps, i, base, k) && Winner(ps, i, base, l)
    ensures k == l
  {
  }

  /** The matching loop finds the winner, and finds none only if nothing matches. */
  lemma MatchingFindsWinner(ps: seq<Policy>, i: Intent, base: Risk)
    ensures var k := BestIndex(ps, i, base, |ps|);
      && (k.Some? <==> exists j :: 0 <= j < |ps| && MatchesPolicy(ps[j], i, base))
      && (k.Some? ==> forall l: nat :: Winner(ps, i, base, l) <==> l == k.value)
  {
    BestIndexWins(ps, i, base, |ps|);
    assert ps[..|ps|] == ps;
    var k := BestIndex(ps, i, base, |ps|);
    if k.Some? {
      forall l: nat ensures Winner(ps, i, base, l) <==> l == k.value {
        if Winner(ps, i, base, l) { WinnerIsUnique(ps, i, base, l, k.value); }
      }
    }
  }

  function Without(ps: seq<Policy>, j: nat): seq<Policy>
    requires j < |ps|
  {
    ps[..j] + ps[j + 1..]
  }

  /** Removing a policy that lost leaves the winner the winner. */
  lemma LosersDoNotMatter(ps: seq<Policy>, i: Intent, base: Risk, k: nat, j: nat)
    requires Winner(ps, i, base, k) && j < |ps| && j != k
    ensures var rest := Without(ps, j);
      BestIndex(rest, i, base, |rest|).Some? && rest[BestIndex(rest, i, base, |rest|).value] == ps[k]
  {
    var rest := Without(ps, j);
    var l := if k < j then k else k - 1;
    assert forall m :: 0 <= m < |rest| ==> rest[m] == ps[if m < j then m else m + 1];
    assert Winner(rest, i, base, l);
    MatchingFindsWinner(rest, i, base);
    assert MatchesPolicy(rest[l], i, base);
  }

  /** The final risk is never below the intent's, nor the chosen policy's. */
  lemma RiskNeverLowered(ps: seq<Policy>, d: GlobalDefaults, risks: Option<RiskDefaults>, i: Intent)
    ensures var r := Resolve(ps, d, risks, i);
      && (i.risk.Some? ==> RiskRank(i.risk.value) <= RiskRank(r.risk))
      && (r.policy.declaredRisk.Some? ==> RiskRank(r.policy.declaredRisk.value) <= RiskRank(r.risk))
      && (r.policy in ps || r.policy == SyntheticDefault(d))
  {
    if NamesPolicy(i) { FoundNamed(ps, i.policyName.value); }
  }

  lemma {:induction false} FoundNamed(ps: seq<Policy>, name: Text)
    ensures FindNamed(ps, name).Some? <==> exists p :: p in ps && p.name == name
    ensures FindNamed(ps, name).Some? ==> FindNamed(ps, name).value in ps && FindNamed(ps, name).value.name == name
  {
    if ps != [] {
      FoundNamed(ps[1..], name);
      assert ps == [ps[0]] + ps[1..];
    }
  }

  /** The policy a resolution gives: the first of the name the intent gives, else
      the winner, else one made of the defaults. Its declared risk raises the base
      risk and never lowers it. */
  lemma ResolutionExactly(ps: seq<Policy>, d: GlobalDefaults, risks: Option<RiskDefaults>, i: Intent, k: nat)
    ensures FirstNamed(ps, i, k) || (Unnamed(i) && Winner(ps, i, DeriveRisk(i, risks), k)) ==>
      var r := Resolve(ps, d, risks, i);
      && r.policy == ps[k]
      && AtLeast(r.risk, DeriveRisk(i, risks))
      && (ps[k].declaredRisk.Some? ==> AtLeast(r.risk, ps[k].declaredRisk.value))
      && (r.risk == DeriveRisk(i, risks) || Some(r.risk) == ps[k].declaredRisk)
    ensures
      (!Unnamed(i) && forall p :: p in ps ==> Some(p.name) != i.policyName) ||
      (Unnamed(i) && forall p :: p in ps ==> !MatchesPolicy(p, i, DeriveRisk(i, risks))) ==>
      var r := Resolve(ps, d, risks, i);
      && r.risk == DeriveRisk(i, risks) && r.policy.declaredRisk == None
      && r.policy.freshness == d.freshness && r.policy.outcomes == d.outcomes && r.policy.execution == d.execution
      && r.policy.preconditions == [] && r.policy.dependencyRules == []
  {
    var base := DeriveRisk(i, risks);
    if Unnamed(i) {
      MatchingFindsWinner(ps, i, base);
      assert forall j :: 0 <= j < |ps| ==> ps[j] in ps;
    } else {
      FoundNamed(ps, i.policyName.value);
      if FirstNamed(ps, i, k) { FirstOfName(ps, i.policyName.value, k); }
    }
    hide DeriveRisk, MatchesPolicy, Winner;
    var r := Resolve(ps, d, risks, i);
    AtLeastRanks(r.risk, base);
    if r.policy.declaredRisk.Some? { AtLeastRanks(r.risk, r.policy.declaredRisk.value); }
    hide AtLeast;
  }

  predicate Unnamed(i: Intent) {
    i.policyName == None || i.policyName == Some([])
  }

  ghost predicate FirstNamed(ps: seq<Policy>, i: Intent, k: nat) {
    && !Unnamed(i) && k < |ps| && Some(ps[k].name) == i.policyName
    && forall j :: 0 <= j < k ==> ps[j].name != ps[k].name
  }

  lemma {:induction false} FirstOfName(ps: seq<Policy>, name: Text, k: nat)
    requires k < |ps| && ps[k].name == name && forall j :: 0 <= j < k ==> ps[j].name != name
    ensures FindNamed(ps, name) == Some(ps[k])
  {
    if k > 0 {
      assert ps[1..][k - 1] == ps[k] && forall j :: 0 <= j < k - 1 ==> ps[1..][j] == ps[j + 1];
      FirstOfName(ps[1..], name, k - 1);
    }
  }

  // ---- Freshness per dependency ---------------------------------------------------

  predicate RuleFits(r: DependencyRule, ref: Ref) {
    Fits(r.source, ref.source) && Fits(r.resource, ref.resource) && Fits(r.resourceId, ref.id)
  }

  /** The freshness of the first rule that fits, else the policy's own. */
  function FreshnessFor(rules: seq<DependencyRule>, ref: Ref, fallback: Freshness): Freshness {
    if rules == [] then fallback
    else if RuleFits(rules[0], ref) then rules[0].freshness
    else FreshnessFor(rules[1..], ref, fallback)
  }

  /** The first rule that fits a dependency sets its freshness, else the policy does. */
  ghost predicate FreshnessSays(rules: seq<DependencyRule>, ref: Ref, fallback: Freshness, f: Freshness) {
    || (exists k: nat :: FirstFitting(rules, ref, k) && f == rules[k].freshness)
    || ((forall k: nat :: !FirstFitting(rules, ref, k)) && f == fallback)
  }

  ghost predicate FirstFitting(rules: seq<DependencyRule>, ref: Ref, k: nat) {
    k < |rules| && Covers(rules[k], ref) && forall j :: 0 <= j < k ==> !Covers(rules[j], ref)
  }

  /** Each part of the reference fits the pattern set for it, if any. */
  ghost predicate Covers(r: DependencyRule, ref: Ref) {
    && (r.source.Some? ==> Glob.GlobMatches(r.source.value, ref.source))
    && (r.resource.Some? ==> Glob.GlobMatches(r.resource.value, ref.resource))
    && (r.resourceId.Some? ==> Glob.GlobMatches(r.resourceId.value, ref.id))
  }

  lemma {:induction false} FirstCovering(rules: seq<DependencyRule>, ref: Ref, fallback: Freshness) returns (k: nat)
    ensures k <= |rules| && forall j :: 0 <= j < k ==> !Covers(rules[j], ref)
    ensures k < |rules| ==> Covers(rules[k], ref)
    ensures FreshnessFor(rules, ref, fallback) == if k < |rules| then rules[k].freshness else fallback
  {
    k := 0;
    if rules != [] && !Covers(rules[0], ref) {
      var l := FirstCovering(rules[1..], ref, fallback);
      k := l + 1;
      assert forall j :: 0 < j < |rules| ==> rules[1..][j - 1] == rules[j];
    }
  }

  lemma FreshnessForExactly(rules: seq<DependencyRule>, ref: Ref, fallback: Freshness, f: Freshness)
    ensures FreshnessFor(rules, ref, fallback) == f <==> FreshnessSays(rules, ref, fallback, f)
  {
    var k := FirstCovering(rules, ref, fallback);
    hide Covers, FreshnessFor;
    assert k < |rules| ==> forall l: nat :: FirstFitting(rules, ref, l) <==> l == k;
  }
}
