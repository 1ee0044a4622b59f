/** Deep redaction (redact.ts) over an arbitrary test for sensitive keys, and
    exactly what it hides from the canonical form. */
module Redaction {
  import opened Text
  import opened Json

  const MAX_DEPTH: nat := 24

  /** "[REDACTED]" */
  const REDACTED: Text := [91, 82, 69, 68, 65, 67, 84, 69, 68, 93]

  type Sensitive = Text -> bool

  predicate Container(v: Value) {
    v.Arr? || v.Obj? || v.Date?
  }

  function Redacted(sensitive: Sensitive, v: Value, depth: nat): Value
    decreases v, 1
  {
    if depth > MAX_DEPTH then
      if Container(v) then Str(REDACTED) else v
    else
      match v
      case Arr(_) => Arr(RedactedItems(sensitive, v, depth))
      case Obj(_) => Obj(RedactedMembers(sensitive, v, depth))
      case Date(_) => Obj(map[])
      case _ => v
  }

  function RedactedItems(sensitive: Sensitive, v: Value, depth: nat): seq<Value>
    requires v.Arr?
    decreases v, 0
  {
    seq(|v.items|, i requires 0 <= i < |v.items| => Redacted(sensitive, v.items[i], depth + 1))
  }

  function RedactedMembers(sensitive: Sensitive, v: Value, depth: nat): map<Text, Value>
    requires v.Obj?
    decreases v, 0
  {
    map k | k in v.members :: if sensitive(k) then Str(REDACTED) else Redacted(sensitive, v.members[k], depth + 1)
  }

  /** The recursion as written: arrays item by item, objects key by key. */
  method RedactDeep(sensitive: Sensitive, v: Value, depth: nat) returns (r: Value)
    ensures r == Redacted(sensitive, v, depth)
    decreases v, 1
  {
    if depth > MAX_DEPTH { return if Container(v) then Str(REDACTED) else v; }
    match v
    case Arr(_) => r := RedactArray(sensitive, v, depth);
    case Obj(_) => r := RedactObject(sensitive, v, depth);
    case Date(_) => r := Obj(map[]);
    case _ => r := v;
  }

  method RedactArray(sensitive: Sensitive, v: Value, depth: nat) returns (r: Value)
    requires v.Arr? && depth <= MAX_DEPTH
    ensures r == Redacted(sensitive, v, depth)
    decreases v, 0
  {
    ghost var expected := RedactedItems(sensitive, v, depth);
    assert forall j :: 0 <= j < |v.items| ==> expected[j] == Redacted(sensitive, v.items[j], depth + 1);
    assert Redacted(sensitive, v, depth) == Arr(expected);
    hide Redacted, RedactedItems;
    var items := [];
    for i := 0 to |v.items|
      invariant items == expected[..i]
    {
      var item := RedactDeep(sensitive, v.items[i], depth + 1);
      items := items + [item];
    }
    r := Arr(items);
  }

  method RedactObject(sensitive: Sensitive, v: Value, depth: nat) returns (r: Value)
    requires v.Obj? && depth <= MAX_DEPTH
    ensures r == Redacted(sensitive, v, depth)
    decreases v, 0
  {
    ghost var expected := RedactedMembers(sensitive, v, depth);
    assert Redacted(sensitive, v, depth) == Obj(expected);
    hide Redacted;
    var out: map<Text, Value> := map[];
    var left := v.members.Keys;
    while left != {}
      invariant left <= v.members.Keys && out.Keys == v.members.Keys - left
      invariant forall k :: k in out ==> out[k] == expected[k]
      decreases |left|
    {
      var k :| k in left;
      if sensitive(k) {
        out := out[k := Str(REDACTED)];
      } else {
        var inner := RedactDeep(sensitive, v.members[k], depth + 1);
        out := out[k := inner];
      }
      left := left - {k};
    }
    assert out == expected;
    r := Obj(out);
  }

  lemma {:induction false} RedactionIsIdempotent(sensitive: Sensitive, v: Value, depth: nat)
    ensures Redacted(sensitive, Redacted(sensitive, v, depth), depth) == Redacted(sensitive, v, depth)
    decreases v, 1
  {
    if depth <= MAX_DEPTH {
      if v.Arr? {
        ItemsIdempotent(sensitive, v, depth);
      } else if v.Obj? {
        MembersIdempotent(sensitive, v, depth);
      } else if v.Date? {
        assert RedactedMembers(sensitive, Obj(map[]), depth) == map[];
      }
    }
  }

  lemma {:induction false} ItemsIdempotent(sensitive: Sensitive, v: Value, depth: nat)
    requires v.Arr?
    ensures var items := RedactedItems(sensitive, v, depth); RedactedItems(sensitive, Arr(items), depth) == items
    decreases v, 0
  {
    hide Redacted;
    forall i | 0 <= i < |v.items| ensures var r := Redacted(sensitive, v.items[i], depth + 1);
      Redacted(sensitive, r, depth + 1) == r {
      RedactionIsIdempotent(sensitive, v.items[i], depth + 1);
    }
  }

  lemma {:induction false} MembersIdempotent(sensitive: Sensitive, v: Value, depth: nat)
    requires v.Obj?
    ensures var members := RedactedMembers(sensitive, v, depth);
      RedactedMembers(sensitive, Obj(members), depth) == members
    decreases v, 0
  {
    hide Redacted;
    forall k | k in v.members ensures var r := Redacted(sensitive, v.members[k], depth + 1);
      Redacted(sensitive, r, depth + 1) == r {
      RedactionIsIdempotent(sensitive, v.members[k], depth + 1);
    }
  }

  // ---- What redaction hides ------------------------------------------------------

  /** A date has no members of its own. */
  function Members(v: Value): map<Text, Value>
    requires v.Obj? || v.Date?
  {
    if v.Obj? then v.members else map[]
  }

  /** The keys an object shows, under a value of its own or under the mark. */
  function ShownKeys(sensitive: Sensitive, m: map<Text, Value>): set<Text> {
    set k | k in m && (sensitive(k) || m[k] != Undefined)
  }

  /** Below the cap a container cannot be told from another, nor from the mark. */
  predicate Hidden(v: Value) {
    Container(v) || v == Str(REDACTED)
  }

  /** The two values differ at most under sensitive keys, in what lies below
      the cap, in dates, and in what no canonical form shows. */
  ghost predicate Alike(sensitive: Sensitive, a: Value, b: Value, depth: nat)
    decreases a
  {
    if depth > MAX_DEPTH then
      if Hidden(a) || Hidden(b) then Hidden(a) && Hidden(b) else Denote(a) == Denote(b)
    else if a.Arr? && b.Arr? then
      && |a.items| == |b.items|
      && forall i :: 0 <= i < |a.items| ==> Alike(sensitive, a.items[i], b.items[i], depth + 1)
    else if (a.Obj? || a.Date?) && (b.Obj? || b.Date?) then
      && ShownKeys(sensitive, Members(a)) == ShownKeys(sensitive, Members(b))
      && (forall k :: k in Members(a) && k in ShownKeys(sensitive, Members(a)) && !sensitive(k) ==>
        Alike(sensitive, Members(a)[k], Members(b)[k], depth + 1))
    else !Container(a) && !Container(b) && Denote(a) == Denote(b)
  }

  /** What the redacted object denotes. */
  function ShownMembers(sensitive: Sensitive, m: map<Text, Value>, depth: nat): map<Text, Json> {
    map k | k in ShownKeys(sensitive, m) ::
      if sensitive(k) then JStr(REDACTED) else Denote(Redacted(sensitive, m[k], depth + 1))
  }

  lemma ShownAfterRedaction(sensitive: Sensitive, v: Value, depth: nat)
    requires depth <= MAX_DEPTH && (v.Obj? || v.Date?)
    ensures Denote(Redacted(sensitive, v, depth)) == JObj(ShownMembers(sensitive, Members(v), depth))
  {
    var r := RedactedMembers(sensitive, Obj(Members(v)), depth);
    assert Redacted(sensitive, v, depth) == Obj(r);
    hide Redacted;
    DenoteObject(r);
    hide Denote;
    ShownOf(sensitive, Members(v), depth);
  }

  lemma RedactionKeepsUndefined(sensitive: Sensitive, v: Value, depth: nat)
    ensures Redacted(sensitive, v, depth) == Undefined <==> v == Undefined
  {
  }

  lemma ShownOf(sensitive: Sensitive, m: map<Text, Value>, depth: nat)
    ensures var r := RedactedMembers(sensitive, Obj(m), depth);
      (map k | k in DefinedKeys(r) :: Denote(r[k])) == ShownMembers(sensitive, m, depth)
  {
    hide Redacted, Denote;
    var r := RedactedMembers(sensitive, Obj(m), depth);
    MarkDenotes();
    forall k | k in m ensures k in DefinedKeys(r) <==> k in ShownKeys(sensitive, m) {
      RedactionKeepsUndefined(sensitive, m[k], depth + 1);
    }
    assert DefinedKeys(r) == ShownKeys(sensitive, m);
  }

  lemma DenoteObject(r: map<Text, Value>)
    ensures Denote(Obj(r)) == JObj(map k | k in DefinedKeys(r) :: Denote(r[k]))
  {
    assert Denote(Obj(r)).members.Keys == DefinedKeys(r);
  }

  lemma MarkDenotes()
    ensures Denote(Str(REDACTED)) == JStr(REDACTED)
  {
  }

  lemma AlikeArrays(sensitive: Sensitive, a: Value, b: Value, depth: nat)
    requires a.Arr? && b.Arr? && depth <= MAX_DEPTH
    ensures Alike(sensitive, a, b, depth) <==> (
      && |a.items| == |b.items|
      && forall i :: 0 <= i < |a.items| ==> Alike(sensitive, a.items[i], b.items[i], depth + 1))
  {
  }

  lemma AlikeObjects(sensitive: Sensitive, a: Value, b: Value, depth: nat)
    requires (a.Obj? || a.Date?) && (b.Obj? || b.Date?) && depth <= MAX_DEPTH
    ensures Alike(sensitive, a, b, depth) <==> (
      && ShownKeys(sensitive, Members(a)) == ShownKeys(sensitive, Members(b))
      && forall k :: k in ShownKeys(sensitive, Members(a)) && !sensitive(k) ==>
        Alike(sensitive, Members(a)[k], Members(b)[k], depth + 1))
  {
  }

  lemma {:induction false} RedactionHidesExactly(sensitive: Sensitive, a: Value, b: Value, depth: nat)
    ensures Denote(Redacted(sensitive, a, depth)) == Denote(Redacted(sensitive, b, depth)) <==>
      Alike(sensitive, a, b, depth)
    decreases a, 1
  {
    if depth <= MAX_DEPTH {
      if a.Arr? && b.Arr? {
        ItemsHideExactly(sensitive, a, b, depth);
      } else if (a.Obj? || a.Date?) && (b.Obj? || b.Date?) {
        MembersHideExactly(sensitive, a, b, depth);
      }
    }
  }

  lemma {:induction false} ItemsHideExactly(sensitive: Sensitive, a: Value, b: Value, depth: nat)
    requires a.Arr? && b.Arr? && depth <= MAX_DEPTH
    ensures Denote(Redacted(sensitive, a, depth)) == Denote(Redacted(sensitive, b, depth)) <==>
      Alike(sensitive, a, b, depth)
    decreases a, 0
  {
    var r, s := RedactedItems(sensitive, a, depth), RedactedItems(sensitive, b, depth);
    assert Redacted(sensitive, a, depth) == Arr(r) && Redacted(sensitive, b, depth) == Arr(s);
    forall i | 0 <= i < |r| && i < |s| ensures Denote(r[i]) == Denote(s[i]) <==>
      Alike(sensitive, a.items[i], b.items[i], depth + 1) {
      RedactionHidesExactly(sensitive, a.items[i], b.items[i], depth + 1);
    }
    DenoteItems(r, s);
    AlikeArrays(sensitive, a, b, depth);
    hide Redacted, Denote, Alike;
  }

  lemma DenoteItems(r: seq<Value>, s: seq<Value>)
    ensures Denote(Arr(r)) == Denote(Arr(s)) <==>
      |r| == |s| && forall i :: 0 <= i < |r| ==> Denote(r[i]) == Denote(s[i])
  {
    var x, y := Denote(Arr(r)).items, Denote(Arr(s)).items;
    assert forall i :: 0 <= i < |r| ==> x[i] == Denote(r[i]);
    assert forall i :: 0 <= i < |s| ==> y[i] == Denote(s[i]);
  }

  lemma {:induction false} MembersHideExactly(sensitive: Sensitive, a: Value, b: Value, depth: nat)
    requires (a.Obj? || a.Date?) && (b.Obj? || b.Date?) && depth <= MAX_DEPTH
    ensures Denote(Redacted(sensitive, a, depth)) == Denote(Redacted(sensitive, b, depth)) <==>
      Alike(sensitive, a, b, depth)
    decreases a, 0
  {
    var m, n := Members(a), Members(b);
    var x, y := ShownMembers(sensitive, m, depth), ShownMembers(sensitive, n, depth);
    ShownAfterRedaction(sensitive, a, depth);
    ShownAfterRedaction(sensitive, b, depth);
    AlikeObjects(sensitive, a, b, depth);
    forall k | k in ShownKeys(sensitive, m) && !sensitive(k) && k in n
      ensures Denote(Redacted(sensitive, m[k], depth + 1)) == Denote(Redacted(sensitive, n[k], depth + 1)) <==>
        Alike(sensitive, m[k], n[k], depth + 1)
    {
      RedactionHidesExactly(sensitive, m[k], n[k], depth + 1);
    }
    SameShown(sensitive, m, n, depth);
    hide *;
  }

  lemma SameShown(sensitive: Sensitive, m: map<Text, Value>, n: map<Text, Value>, depth: nat)
    ensures ShownMembers(sensitive, m, depth) == ShownMembers(sensitive, n, depth) <==> (
      && ShownKeys(sensitive, m) == ShownKeys(sensitive, n)
      && forall k :: k in ShownKeys(sensitive, m) && !sensitive(k) ==>
        Denote(Redacted(sensitive, m[k], depth + 1)) == Denote(Redacted(sensitive, n[k], depth + 1)))
  {
    hide Redacted, Denote;
    var x, y := ShownMembers(sensitive, m, depth), ShownMembers(sensitive, n, depth);
    assert x.Keys == ShownKeys(sensitive, m) && y.Keys == ShownKeys(sensitive, n);
    if x == y {
      forall k | k in ShownKeys(sensitive, m) && !sensitive(k)
        ensures Denote(Redacted(sensitive, m[k], depth + 1)) == Denote(Redacted(sensitive, n[k], depth + 1))
      {
        assert x[k] == y[k];
      }
    }
  }

  /** Two arguments have the same redacted canonical form exactly when they are alike. */
  lemma RedactedFormsAgree(sensitive: Sensitive, a: Value, b: Value)
    ensures CanonicalJson(Redacted(sensitive, a, 0)) == CanonicalJson(Redacted(sensitive, b, 0)) <==>
      Alike(sensitive, a, b, 0)
  {
    RedactionHidesExactly(sensitive, a, b, 0);
    CanonicalJsonInjective(Redacted(sensitive, a, 0), Redacted(sensitive, b, 0));
  }

  /** "2024-01-01T00:00:00.000Z" and "2025-01-01T00:00:00.000Z" */
  const NEW_YEAR_2024: Text :=
    [50, 48, 50, 52, 45, 48, 49, 45, 48, 49, 84, 48, 48, 58, 48, 48, 58, 48, 48, 46, 48, 48, 48, 90]
  const NEW_YEAR_2025: Text :=
    [50, 48, 50, 53, 45, 48, 49, 45, 48, 49, 84, 48, 48, 58, 48, 48, 58, 48, 48, 46, 48, 48, 48, 90]

  /** Dates are the difference above the cap that no key explains: each is an
      object without members, so any two redact alike, whatever they denote. */
  lemma DatesLookAlike(sensitive: Sensitive, x: Text, y: Text)
    ensures CanonicalJson(Redacted(sensitive, Date(x), 0)) == CanonicalJson(Redacted(sensitive, Date(y), 0))
    ensures x != y ==> CanonicalJson(Date(x)) != CanonicalJson(Date(y))
    ensures NEW_YEAR_2024 != NEW_YEAR_2025
  {
    assert NEW_YEAR_2024[3] != NEW_YEAR_2025[3];
    CanonicalJsonInjective(Date(x), Date(y));
  }

  // ---- What redaction leaves -----------------------------------------------------

  /** Every member under a sensitive key, however deep, is the mark. */
  ghost predicate Covered(sensitive: Sensitive, v: Value) {
    match v
    case Arr(xs) => forall x :: x in xs ==> Covered(sensitive, x)
    case Obj(m) =>
      forall k :: k in m ==> if sensitive(k) then m[k] == Str(Units("[REDACTED]")) else Covered(sensitive, m[k])
    case _ => true
  }

  lemma {:induction false} RedactionCovers(sensitive: Sensitive, v: Value, depth: nat)
    ensures Covered(sensitive, Redacted(sensitive, v, depth))
    decreases v
  {
    assert Units("[REDACTED]") == REDACTED;
    if depth <= MAX_DEPTH && v.Arr? {
      var items := RedactedItems(sensitive, v, depth);
      forall x | x in items ensures Covered(sensitive, x) {
        var i :| 0 <= i < |items| && items[i] == x;
        RedactionCovers(sensitive, v.items[i], depth + 1);
      }
    } else if depth <= MAX_DEPTH && v.Obj? {
      forall k | k in v.members && !sensitive(k)
        ensures Covered(sensitive, Redacted(sensitive, v.members[k], depth + 1))
      {
        RedactionCovers(sensitive, v.members[k], depth + 1);
      }
    }
  }

  /** How many containers a value nests, and whether redaction finds nothing in it. */
  ghost predicate Harmless(sensitive: Sensitive, v: Value, levels: nat)
    decreases v
  {
    match v
    case Arr(xs) => levels > 0 && forall x :: x in xs ==> Harmless(sensitive, x, levels - 1)
    case Obj(m) => levels > 0 && forall k :: k in m ==> !sensitive(k) && Harmless(sensitive, m[k], levels - 1)
    case Date(_) => false
    case _ => true
  }

  /** A value of at most twenty-five nested containers, without dates and sensitive
      keys, is left as it is. */
  lemma {:induction false} RedactionKeeps(sensitive: Sensitive, v: Value, depth: nat)
    requires depth <= 25 && Harmless(sensitive, v, 25 - depth)
    ensures Redacted(sensitive, v, depth) == v
    decreases v
  {
    if v.Arr? {
      forall i | 0 <= i < |v.items| ensures Redacted(sensitive, v.items[i], depth + 1) == v.items[i] {
        assert v.items[i] in v.items;
        RedactionKeeps(sensitive, v.items[i], depth + 1);
      }
      assert RedactedItems(sensitive, v, depth) == v.items;
    } else if v.Obj? {
      forall k | k in v.members ensures Redacted(sensitive, v.members[k], depth + 1) == v.members[k] {
        RedactionKeeps(sensitive, v.members[k], depth + 1);
      }
      assert RedactedMembers(sensitive, v, depth) == v.members;
    }
  }

  /** `v` inside so many arrays. */
  function Nested(v: Value, levels: nat): Value {
    if levels == 0 then v else Arr([Nested(v, levels - 1)])
  }

  /** The twenty-sixth container, whatever it holds, is replaced by the mark. */
  lemma {:induction false} RedactionCaps(sensitive: Sensitive, v: Value, levels: nat)
    requires v.Arr? || v.Obj? || v.Date?
    requires levels <= 25
    ensures Redacted(sensitive, Nested(v, levels), 25 - levels) == Nested(Str(Units("[REDACTED]")), levels)
  {
    assert Units("[REDACTED]") == REDACTED;
    if levels > 0 {
      RedactionCaps(sensitive, v, levels - 1);
      var w := Nested(v, levels);
      assert RedactedItems(sensitive, w, 25 - levels) == [Redacted(sensitive, w.items[0], 25 - levels + 1)];
    }
  }
}
