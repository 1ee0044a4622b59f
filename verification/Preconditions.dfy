/** Preconditions against current metadata (preconditions.ts). */
module Preconditions {
  import opened Wrappers
  import opened Text
  import opened Json
  import opened Domain

  const DOT: Unit := 46
  /** "length" */
  const LENGTH_TEXT: Text := [108, 101, 110, 103, 116, 104]

  /** `path.split('.')` */
  function SplitDots(path: Text): (segments: seq<Text>)
    ensures segments != []
  {
    if path == [] then [[]]
    else
      var rest := SplitDots(path[1..]);
      if path[0] == DOT then [[]] + rest else [[path[0]] + rest[0]] + rest[1..]
  }

  /** The own property `name`, when `v` is an object that has it. */
  function OwnProperty(v: Value, name: Text): Option<Value> {
    match v
    case Obj(m) => if name in m then Some(m[name]) else None
    case Arr(xs) =>
      if name == LENGTH_TEXT then Some(Num(LengthText(|xs|)))
      else if exists i | 0 <= i < |xs| :: Decimal(i) == name then
        var i := IndexNamed(xs, name); Some(xs[i])
      else None
    case _ => None
  }

  function LengthText(n: nat): NumberText {
    Decimal(n)
  }

  function IndexNamed(xs: seq<Value>, name: Text): (i: nat)
    requires exists i | 0 <= i < |xs| :: Decimal(i) == name
    ensures i < |xs| && Decimal(i) == name
  {
    assert forall i, j: nat :: Decimal(i) == name && Decimal(j) == name ==> i == j by {
      forall i: nat, j: nat | Decimal(i) == name && Decimal(j) == name ensures i == j {
        DecimalInjective(i, j);
      }
    }
    var i: nat :| i < |xs| && Decimal(i) == name;
    i
  }

  function Resolve(v: Value, segments: seq<Text>): Option<Value>
    decreases |segments|
  {
    if segments == [] then Some(v)
    else
      var p := OwnProperty(v, segments[0]);
      if p.None? then None else Resolve(p.value, segments[1..])
  }

  /** The walk of `resolvePath`. */
  method ResolvePath(metadata: map<Text, Value>, path: Text) returns (found: Option<Value>)
    ensures found == Resolve(Obj(metadata), SplitDots(path))
  {
    var segments := SplitDots(path);
    var current := Obj(metadata);
    for i := 0 to |segments|
      invariant Resolve(current, segments[i..]) == Resolve(Obj(metadata), segments)
    {
      var next := OwnProperty(current, segments[i]);
      assert segments[i..][1..] == segments[i + 1..];
      if next.None? { return None; }
      current := next.value;
    }
    return Some(current);
  }

  // ---- What a path reads ------------------------------------------------------

  function Dotted(segments: seq<Text>): Text
    requires segments != []
  {
    if |segments| == 1 then segments[0] else segments[0] + [DOT] + Dotted(segments[1..])
  }

  /** A path is its segments, none of which has a dot, with dots between them. */
  lemma {:induction false} SplitOfDotted(segments: seq<Text>)
    requires segments != [] && forall s :: s in segments ==> 46 !in s
    ensures SplitDots(Dotted(segments)) == segments
  {
    if |segments| == 1 {
      SplitPlain(segments[0], []);
      assert segments[0] + [] == segments[0] && segments == [segments[0]];
    } else {
      SplitOfDotted(segments[1..]);
      var tail := [DOT] + Dotted(segments[1..]);
      assert tail[1..] == Dotted(segments[1..]);
      SplitPlain(segments[0], tail);
      assert segments[0] + tail == Dotted(segments);
      assert SplitDots(tail) == [[]] + segments[1..];
      assert segments[0] + [] == segments[0] && segments == [segments[0]] + segments[1..];
    }
  }

  lemma {:induction false} SplitPlain(s: Text, tail: Text)
    requires 46 !in s
    ensures SplitDots(s + tail) == [s + SplitDots(tail)[0]] + SplitDots(tail)[1..]
  {
    if s == [] {
      assert s + tail == tail && s + SplitDots(tail)[0] == SplitDots(tail)[0];
    } else {
      SplitPlain(s[1..], tail);
      assert (s + tail)[1..] == s[1..] + tail;
      assert s == [s[0]] + s[1..] && s[0] in s;
      assert [s[0]] + (s[1..] + SplitDots(tail)[0]) == s + SplitDots(tail)[0];
    }
  }

  lemma {:induction false} DottedOfSplit(path: Text)
    ensures Dotted(SplitDots(path)) == path && forall s :: s in SplitDots(path) ==> 46 !in s
  {
    if path != [] {
      DottedOfSplit(path[1..]);
      assert path == [path[0]] + path[1..];
    }
  }

  /** `x` is a member of `v` under `name`: of an object any, of an array its items
      under their numbers and its length. */
  ghost predicate Member(v: Value, name: Text, x: Value) {
    match v
    case Obj(m) => name in m && x == m[name]
    case Arr(xs) =>
      || (exists i :: 0 <= i < |xs| && name == Decimal(i) && x == xs[i])
      || (name == LENGTH_TEXT && x == Num(LengthText(|xs|)))
    case _ => false
  }

  /** Taking one member after another leads from `v` to `x`. */
  ghost predicate Leads(v: Value, segments: seq<Text>, x: Value)
    decreases |segments|
  {
    if segments == [] then x == v else exists w :: Member(v, segments[0], w) && Leads(w, segments[1..], x)
  }

  lemma OwnPropertyExactly(v: Value, name: Text, x: Value)
    ensures OwnProperty(v, name) == Some(x) <==> Member(v, name, x)
  {
    if v.Arr? {
      forall i: nat, j: nat | Decimal(i) == Decimal(j) ensures i == j { DecimalInjective(i, j); }
      forall i: nat ensures Decimal(i) != LENGTH_TEXT { assert IsDigit(Decimal(i)[0]); }
    }
  }

  /** The path finds a value exactly when its segments lead there. */
  lemma {:induction false} ResolveExactly(v: Value, segments: seq<Text>, x: Value)
    ensures Resolve(v, segments) == Some(x) <==> Leads(v, segments, x)
    decreases |segments|
  {
    hide OwnProperty, Member;
    if segments != [] {
      var p := OwnProperty(v, segments[0]);
      forall w ensures p == Some(w) <==> Member(v, segments[0], w) { OwnPropertyExactly(v, segments[0], w); }
      if p.Some? { ResolveExactly(p.value, segments[1..], x); }
    }
  }

  predicate StructurallyEqual(a: Value, b: Value) {
    CanonicalJson(a) == CanonicalJson(b)
  }

  predicate Includes(s: Text, part: Text) {
    exists i | 0 <= i <= |s| :: part <= s[i..]
  }

  predicate ContainsValue(subject: Value, expected: Value) {
    match subject
    case Str(s) => expected.Str? && Includes(s, expected.s)
    case Arr(xs) => exists i | 0 <= i < |xs| :: StructurallyEqual(xs[i], expected)
    case _ => false
  }

  predicate IsNumber(v: Value) { v.Num? || v.NonFinite? }

  /** Whether a precondition holds on the given metadata. */
  predicate Holds(e: Engine, p: Precondition, metadata: map<Text, Value>) {
    var subject := Resolve(Obj(metadata), SplitDots(p.field));
    match p.operator
    case Exists => subject.Some?
    case NotExists => subject.None?
    case Equals => subject.Some? && StructurallyEqual(subject.value, p.value)
    case NotEquals => subject.Some? && !StructurallyEqual(subject.value, p.value)
    case Contains => subject.Some? && ContainsValue(subject.value, p.value)
    case NotContains => subject.Some? && !ContainsValue(subject.value, p.value)
    case GreaterThan =>
      subject.Some? && IsNumber(subject.value) && IsNumber(p.value) && e.numberLess(p.value, subject.value)
    case LessThan =>
      subject.Some? && IsNumber(subject.value) && IsNumber(p.value) && e.numberLess(subject.value, p.value)
    case In => subject.Some? && p.value.Arr? && ContainsValue(p.value, subject.value)
    case NotIn => subject.Some? && !(p.value.Arr? && ContainsValue(p.value, subject.value))
    case Matches =>
      subject.Some? && subject.value.Str? && p.value.Str? && e.regexMatches(p.value.s, subject.value.s)
  }

  // ---- What the operators mean ----------------------------------------------------

  ghost predicate SomeItemDenotes(xs: seq<Value>, v: Value) {
    exists x :: x in xs && Denote(x) == Denote(v)
  }

  ghost predicate Within(part: Text, whole: Text) {
    exists a, b :: a + part + b == whole
  }

  lemma ContainsExactly(subject: Value, expected: Value)
    ensures ContainsValue(subject, expected) <==>
      || (subject.Str? && expected.Str? && Within(expected.s, subject.s))
      || (subject.Arr? && SomeItemDenotes(subject.items, expected))
  {
    if subject.Str? && expected.Str? {
      IncludesExactly(subject.s, expected.s);
    } else if subject.Arr? {
      forall x | x in subject.items ensures StructurallyEqual(x, expected) <==> Denote(x) == Denote(expected) {
        CanonicalJsonInjective(x, expected);
      }
      if SomeItemDenotes(subject.items, expected) {
        var x :| x in subject.items && Denote(x) == Denote(expected);
        var i :| 0 <= i < |subject.items| && subject.items[i] == x;
      }
      hide StructurallyEqual, Denote;
    }
  }

  lemma IncludesExactly(s: Text, part: Text)
    ensures Includes(s, part) <==> Within(part, s)
  {
    if Includes(s, part) {
      var i :| 0 <= i <= |s| && part <= s[i..];
      assert s[..i] + part + s[i + |part|..] == s;
    }
    if Within(part, s) {
      var a, b :| a + part + b == s;
      assert part <= s[|a|..];
    }
  }

  /** On a path that leads nowhere only the demand for absence holds. */
  lemma AbsentFieldHolds(e: Engine, p: Precondition, metadata: map<Text, Value>)
    requires forall x :: !Leads(Obj(metadata), SplitDots(p.field), x)
    ensures Holds(e, p, metadata) <==> p.operator == NotExists
  {
    hide Leads;
    var subject := Resolve(Obj(metadata), SplitDots(p.field));
    if subject.Some? { ResolveExactly(Obj(metadata), SplitDots(p.field), subject.value); }
  }

  /** What each operator demands of the value `x` its path leads to. */
  ghost predicate Demands(e: Engine, p: Precondition, x: Value) {
    var y := p.value;
    var numbers := (x.Num? || x.NonFinite?) && (y.Num? || y.NonFinite?);
    var contained :=
      (x.Str? && y.Str? && Within(y.s, x.s)) || (x.Arr? && SomeItemDenotes(x.items, y));
    match p.operator
    case Exists => true
    case NotExists => false
    case Equals => Denote(x) == Denote(y)
    case NotEquals => Denote(x) != Denote(y)
    case Contains => contained
    case NotContains => !contained
    case GreaterThan => numbers && e.numberLess(y, x)
    case LessThan => numbers && e.numberLess(x, y)
    case In => y.Arr? && SomeItemDenotes(y.items, x)
    case NotIn => y.Arr? ==> !SomeItemDenotes(y.items, x)
    case Matches => x.Str? && y.Str? && e.regexMatches(y.s, x.s)
  }

  lemma PresentFieldHolds(e: Engine, p: Precondition, metadata: map<Text, Value>, x: Value)
    requires Leads(Obj(metadata), SplitDots(p.field), x)
    ensures Holds(e, p, metadata) <==> Demands(e, p, x)
  {
    ResolveExactly(Obj(metadata), SplitDots(p.field), x);
    ContainsExactly(x, p.value);
    ContainsExactly(p.value, x);
    CanonicalJsonInjective(x, p.value);
    hide Leads, SomeItemDenotes, Within, ContainsValue, Denote, CanonicalJson;
  }

  function Evaluate(e: Engine, ps: seq<Precondition>, metadata: map<Text, Value>): (rs: seq<PreconditionResult>)
    ensures |rs| == |ps|
    ensures forall i :: 0 <= i < |ps| ==> rs[i] == PreconditionResult(ps[i], Holds(e, ps[i], metadata))
  {
    seq(|ps|, i requires 0 <= i < |ps| => PreconditionResult(ps[i], Holds(e, ps[i], metadata)))
  }

  ghost predicate AllHold(e: Engine, ps: seq<Precondition>, metadata: map<Text, Value>) {
    forall p :: p in ps ==> Holds(e, p, metadata)
  }

  predicate AllPassed(rs: seq<PreconditionResult>) {
    forall i | 0 <= i < |rs| :: rs[i].passed
  }

  lemma PassedMeansHold(e: Engine, ps: seq<Precondition>, metadata: map<Text, Value>)
    ensures AllPassed(Evaluate(e, ps, metadata)) <==> AllHold(e, ps, metadata)
  {
    var rs := Evaluate(e, ps, metadata);
    if AllPassed(rs) {
      forall p | p in ps ensures Holds(e, p, metadata) {
        var i :| 0 <= i < |ps| && ps[i] == p;
        assert rs[i].passed;
      }
    }
  }
}
