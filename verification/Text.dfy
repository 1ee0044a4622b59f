/** Strings as the source's runtime sees them: sequences of UTF-16 code
    units, their code-unit order, default `sort`, and decimal rendering. */
module Text {
  type Unit = u: int | 0 <= u < 0x10000
  type Text = seq<Unit>

  const ZERO: Unit := 48
  const NINE: Unit := 57

  function Code(c: char): Unit {
    if c as int < 0x10000 then c as int else 0
  }

  /** The code units of a literal without characters beyond 0xFFFF. */
  function Units(literal: string): Text {
    seq(|literal|, i requires 0 <= i < |literal| => Code(literal[i]))
  }

  // ---- Code-unit order --------------------------------------------------

  predicate Le(a: Text, b: Text) {
    a == [] || (b != [] && (a[0] < b[0] || (a[0] == b[0] && Le(a[1..], b[1..]))))
  }

  /** The order of `sort`: a prefix comes first, and otherwise the text with the
      smaller unit where the two first differ. */
  lemma {:induction false} LeExactly(a: Text, b: Text)
    ensures Le(a, b) <==> a <= b || exists k :: 0 <= k < |a| && k < |b| && a[..k] == b[..k] && a[k] < b[k]
  {
    if a != [] && b != [] && a[0] == b[0] {
      LeExactly(a[1..], b[1..]);
      assert a == [a[0]] + a[1..] && b == [b[0]] + b[1..];
      assert a <= b <==> a[1..] <= b[1..];
      if Le(a[1..], b[1..]) && !(a <= b) {
        var k :| 0 <= k < |a[1..]| && k < |b[1..]| && a[1..][..k] == b[1..][..k] && a[1..][k] < b[1..][k];
        assert a[..k + 1] == [a[0]] + a[1..][..k] && b[..k + 1] == [b[0]] + b[1..][..k];
      }
      if k :| 0 <= k < |a| && k < |b| && a[..k] == b[..k] && a[k] < b[k] {
        assert a[1..][..k - 1] == a[..k][1..] && b[1..][..k - 1] == b[..k][1..];
      }
    }
  }

  lemma {:induction false} LeReflexive(a: Text)
    ensures Le(a, a)
  {
    if a != [] { LeReflexive(a[1..]); }
  }

  lemma {:induction false} LeTotal(a: Text, b: Text)
    ensures Le(a, b) || Le(b, a)
  {
    if a != [] && b != [] { LeTotal(a[1..], b[1..]); }
  }

  lemma {:induction false} LeAntisymmetric(a: Text, b: Text)
    requires Le(a, b) && Le(b, a)
    ensures a == b
  {
    if a != [] {
      LeAntisymmetric(a[1..], b[1..]);
      assert a == [a[0]] + a[1..] && b == [b[0]] + b[1..];
    }
  }

  lemma {:induction false} LeTransitive(a: Text, b: Text, c: Text)
    requires Le(a, b) && Le(b, c)
    ensures Le(a, c)
  {
    if a != [] && a[0] == b[0] == c[0] { LeTransitive(a[1..], b[1..], c[1..]); }
  }

  // ---- Sorting a list of strings ----------------------------------------

  function Insert(x: Text, xs: seq<Text>): seq<Text> {
    if xs == [] then [x]
    else if Le(x, xs[0]) then [x] + xs
    else [xs[0]] + Insert(x, xs[1..])
  }

  function Sort(xs: seq<Text>): seq<Text> {
    if xs == [] then [] else Insert(xs[0], Sort(xs[1..]))
  }

  ghost predicate Sorted(xs: seq<Text>) {
    forall i, j :: 0 <= i < j < |xs| ==> Le(xs[i], xs[j])
  }

  lemma {:induction false} InsertSorts(x: Text, xs: seq<Text>)
    requires Sorted(xs)
    ensures Sorted(Insert(x, xs))
    ensures multiset(Insert(x, xs)) == multiset{x} + multiset(xs)
  {
    if xs == [] {
    } else if Le(x, xs[0]) {
      forall j | 0 <= j < |xs| ensures Le(x, xs[j]) {
        if j > 0 { LeTransitive(x, xs[0], xs[j]); }
      }
    } else {
      var tail := Insert(x, xs[1..]);
      InsertSorts(x, xs[1..]);
      LeTotal(x, xs[0]);
      assert xs == [xs[0]] + xs[1..];
      forall j | 0 <= j < |tail| ensures Le(xs[0], tail[j]) {
        assert tail[j] in multiset(tail);
        if tail[j] != x {
          assert tail[j] in multiset(xs[1..]);
          assert tail[j] in xs[1..];
        }
      }
    }
  }

  lemma {:induction false} SortSorts(xs: seq<Text>)
    ensures Sorted(Sort(xs))
    ensures multiset(Sort(xs)) == multiset(xs)
  {
    if xs != [] {
      SortSorts(xs[1..]);
      InsertSorts(xs[0], Sort(xs[1..]));
      assert xs == [xs[0]] + xs[1..];
    }
  }

  lemma SortedHeadIsLeast(a: seq<Text>, x: Text)
    requires Sorted(a) && x in multiset(a)
    ensures a != [] && Le(a[0], x)
  {
    var i :| 0 <= i < |a| && a[i] == x;
    LeReflexive(x);
  }

  /** Two sorted lists of the same strings are the same list. */
  lemma {:induction false} SortedIsUnique(a: seq<Text>, b: seq<Text>)
    requires Sorted(a) && Sorted(b) && multiset(a) == multiset(b)
    ensures a == b
  {
    if a == [] {
      assert |multiset(a)| == |multiset(b)|;
    } else {
      assert a[0] in multiset(a);
      SortedHeadIsLeast(b, a[0]);
      assert b[0] in multiset(b);
      SortedHeadIsLeast(a, b[0]);
      LeAntisymmetric(a[0], b[0]);
      SameTails(a, b);
      SortedIsUnique(a[1..], b[1..]);
    }
  }

  lemma SameTails<T>(a: seq<T>, b: seq<T>)
    requires multiset(a) == multiset(b) && a != [] && b != [] && a[0] == b[0]
    ensures multiset(a[1..]) == multiset(b[1..])
    ensures a[1..] == b[1..] ==> a == b
  {
    assert a == [a[0]] + a[1..] && b == [b[0]] + b[1..];
    assert multiset(a[1..]) == multiset(a) - multiset{a[0]};
    assert multiset(b[1..]) == multiset(b) - multiset{b[0]};
  }

  /** Comparing two lists after sorting compares them as multisets. */
  lemma SortComparesMultisets(a: seq<Text>, b: seq<Text>)
    ensures Sort(a) == Sort(b) <==> multiset(a) == multiset(b)
  {
    SortSorts(a);
    SortSorts(b);
    if multiset(a) == multiset(b) { SortedIsUnique(Sort(a), Sort(b)); }
  }

  // ---- The keys of an object, sorted ------------------------------------

  lemma {:induction false} LeastExists(s: set<Text>)
    requires s != {}
    ensures exists k :: k in s && forall j :: j in s ==> Le(k, j)
    decreases |s|
  {
    var x :| x in s;
    LeReflexive(x);
    if s != {x} {
      var rest := s - {x};
      assert rest != {};
      LeastExists(rest);
      var k :| k in rest && forall j :: j in rest ==> Le(k, j);
      LeTotal(x, k);
      if Le(x, k) {
        forall j | j in s ensures Le(x, j) {
          if j != x { LeTransitive(x, k, j); }
        }
      } else {
        assert forall j :: j in s ==> j == x || j in rest;
      }
    }
  }

  function Least(s: set<Text>): (k: Text)
    requires s != {}
    ensures k in s && forall j :: j in s ==> Le(k, j)
  {
    LeastExists(s);
    assert forall k, l ::
      (k in s && l in s && (forall j :: j in s ==> Le(k, j)) && (forall j :: j in s ==> Le(l, j))) ==> k == l by {
      forall k, l | k in s && l in s && (forall j :: j in s ==> Le(k, j)) && (forall j :: j in s ==> Le(l, j))
        ensures k == l
      {
        LeAntisymmetric(k, l);
      }
    }
    var k :| k in s && forall j :: j in s ==> Le(k, j);
    k
  }

  /** `Object.keys(record).sort()`: whatever order the keys are listed in. */
  function SortedKeys(s: set<Text>): (ks: seq<Text>)
    ensures forall k :: k in ks <==> k in s
    ensures forall i, j :: 0 <= i < j < |ks| ==> ks[i] != ks[j]
    ensures |ks| == |s|
    decreases |s|
  {
    if s == {} then []
    else
      var k := Least(s);
      [k] + SortedKeys(s - {k})
  }

  lemma {:induction false} SortedKeysSorted(s: set<Text>)
    ensures Sorted(SortedKeys(s))
    decreases |s|
  {
    if s != {} {
      SortedKeysSorted(s - {Least(s)});
    }
  }

  /** Any listing of the keys without repetition sorts to `SortedKeys`. */
  lemma SortOfListing(xs: seq<Text>)
    requires forall i, j :: 0 <= i < j < |xs| ==> xs[i] != xs[j]
    ensures Sort(xs) == SortedKeys(set x | x in xs)
  {
    var s := set x | x in xs;
    var ks := SortedKeys(s);
    SortSorts(xs);
    SortedKeysSorted(s);
    assert multiset(xs) == multiset(ks) by { SameKeysOnce(xs, ks); }
    SortedIsUnique(Sort(xs), ks);
  }

  lemma SameKeysOnce(a: seq<Text>, b: seq<Text>)
    requires forall i, j :: 0 <= i < j < |a| ==> a[i] != a[j]
    requires forall i, j :: 0 <= i < j < |b| ==> b[i] != b[j]
    requires forall k :: k in a <==> k in b
    ensures multiset(a) == multiset(b)
  {
    OncePerKey(a);
    OncePerKey(b);
  }

  lemma {:induction false} OncePerKey(xs: seq<Text>)
    requires forall i, j :: 0 <= i < j < |xs| ==> xs[i] != xs[j]
    ensures forall k :: multiset(xs)[k] == if k in xs then 1 else 0
  {
    if xs != [] {
      OncePerKey(xs[1..]);
      assert xs == [xs[0]] + xs[1..];
      assert xs[0] !in xs[1..];
    }
  }

  // ---- Decimal rendering of a non-negative integer -----------------------

  predicate IsDigit(u: Unit) { ZERO <= u <= NINE }

  function Decimal(n: nat): (t: Text)
    ensures t != []
    ensures forall i :: 0 <= i < |t| ==> IsDigit(t[i])
  {
    if n < 10 then [ZERO + n] else Decimal(n / 10) + [ZERO + n % 10]
  }

  /** `Number(digits)`, before any rounding to a double. */
  function DecimalValue(t: Text): nat
    requires forall i :: 0 <= i < |t| ==> IsDigit(t[i])
  {
    if t == [] then 0 else
      var last := t[|t| - 1];
      assert IsDigit(last);
      10 * DecimalValue(t[..|t| - 1]) + (last - ZERO) as nat
  }

  lemma {:induction false} DecimalRoundTrip(n: nat)
    ensures DecimalValue(Decimal(n)) == n
  {
    if n >= 10 {
      DecimalRoundTrip(n / 10);
      assert Decimal(n)[..|Decimal(n)| - 1] == Decimal(n / 10);
    } else {
      assert Decimal(n)[..0] == [];
    }
  }

  /** No leading zero, but for zero itself. */
  lemma {:induction false} DecimalLeads(n: nat)
    ensures Decimal(n)[0] == ZERO <==> n == 0
  {
    if n >= 10 { DecimalLeads(n / 10); }
  }

  lemma DecimalInjective(m: nat, n: nat)
    requires Decimal(m) == Decimal(n)
    ensures m == n
  {
    DecimalRoundTrip(m);
    DecimalRoundTrip(n);
  }
}
