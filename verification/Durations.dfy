/** Printing and parsing durations (duration.ts). Values are exact integers;
    the source's doubles are exact as long as they stay at or below
    MAX_SAFE_INTEGER. */
module Durations {
  import opened Wrappers
  import opened Text

  const MAX_SAFE_INTEGER := 9_007_199_254_740_991

  const SECOND := 1_000
  const MINUTE := 60_000
  const HOUR := 3_600_000
  const DAY := 86_400_000

  /** "ms", "s", "m", "h", "d" */
  const MS_UNIT: Text := [109, 115]
  const S_UNIT: Text := [115]
  const M_UNIT: Text := [109]
  const H_UNIT: Text := [104]
  const D_UNIT: Text := [100]

  /** A duration as configuration gives it: a number of milliseconds or text. */
  datatype Duration = Millis(n: int) | Written(text: Text)

  predicate IsSpace(u: Unit) {
    9 <= u <= 13 || 0x2000 <= u <= 0x200A || u in {32, 160, 0x1680, 0x2028, 0x2029, 0x202F, 0x205F, 0x3000, 0xFEFF}
  }

  function TrimStart(t: Text): Text {
    if t != [] && IsSpace(t[0]) then TrimStart(t[1..]) else t
  }

  function TrimEnd(t: Text): Text {
    if t != [] && IsSpace(t[|t| - 1]) then TrimEnd(t[..|t| - 1]) else t
  }

  /** How many digits the text starts with. */
  function DigitPrefix(t: Text): (n: nat)
    ensures n <= |t| && (forall i :: 0 <= i < n ==> IsDigit(t[i])) && (n < |t| ==> !IsDigit(t[n]))
  {
    if t == [] || !IsDigit(t[0]) then 0
    else
      var n := DigitPrefix(t[1..]);
      assert n < |t[1..]| ==> t[1..][n] == t[n + 1];
      assert forall i :: 0 < i < n + 1 ==> t[i] == t[1..][i - 1];
      n + 1
  }

  function Multiplier(suffix: Text): Option<nat> {
    if suffix == MS_UNIT then Some(1)
    else if suffix == S_UNIT then Some(SECOND)
    else if suffix == M_UNIT then Some(MINUTE)
    else if suffix == H_UNIT then Some(HOUR)
    else if suffix == D_UNIT then Some(DAY)
    else None
  }

  /** `None` where the source throws. */
  function ParseDuration(d: Duration): Option<nat> {
    match d
    case Millis(n) => if n < 0 then None else Some(n)
    case Written(text) =>
      var t := TrimEnd(TrimStart(text));
      var k := DigitPrefix(t);
      var m := Multiplier(t[k..]);
      if k == 0 || m.None? then None else Some(DecimalValue(t[..k]) * m.value)
  }

  function FormatDuration(n: nat): Text {
    if n >= DAY && n % DAY == 0 then Decimal(n / DAY) + D_UNIT
    else if n >= HOUR && n % HOUR == 0 then Decimal(n / HOUR) + H_UNIT
    else if n >= MINUTE && n % MINUTE == 0 then Decimal(n / MINUTE) + M_UNIT
    else if n >= SECOND && n % SECOND == 0 then Decimal(n / SECOND) + S_UNIT
    else Decimal(n) + MS_UNIT
  }

  lemma {:induction false} DigitPrefixOfAppend(digits: Text, suffix: Text)
    requires forall i :: 0 <= i < |digits| ==> IsDigit(digits[i])
    requires suffix != [] && !IsDigit(suffix[0])
    ensures DigitPrefix(digits + suffix) == |digits|
  {
    if digits == [] {
      assert digits + suffix == suffix;
    } else {
      DigitPrefixOfAppend(digits[1..], suffix);
      assert (digits + suffix)[1..] == digits[1..] + suffix;
    }
  }

  lemma ParseOfUnits(value: nat, suffix: Text)
    requires Multiplier(suffix).Some?
    ensures ParseDuration(Written(Decimal(value) + suffix)) == Some(value * Multiplier(suffix).value)
  {
    var t := Decimal(value) + suffix;
    assert !IsDigit(suffix[0]) && !IsSpace(suffix[|suffix| - 1]);
    assert t[0] == Decimal(value)[0] && t[|t| - 1] == suffix[|suffix| - 1];
    DigitPrefixOfAppend(Decimal(value), suffix);
    assert t[..|Decimal(value)|] == Decimal(value) && t[|Decimal(value)|..] == suffix;
    DecimalRoundTrip(value);
  }

  predicate PrintedAs(n: nat, value: nat, suffix: Text) {
    && FormatDuration(n) == Decimal(value) + suffix
    && Multiplier(suffix).Some? && value <= value * Multiplier(suffix).value == n
  }

  /** Printing then parsing gives back every safe non-negative integer, and no
      number met on the way leaves the safe range. */
  lemma DurationRoundTrip(n: nat)
    requires n <= MAX_SAFE_INTEGER
    ensures ParseDuration(Written(FormatDuration(n))) == Some(n)
    ensures exists value: nat, suffix: Text :: PrintedAs(n, value, suffix)
  {
    var (value, suffix) :=
      if n >= DAY && n % DAY == 0 then (n / DAY, D_UNIT)
      else if n >= HOUR && n % HOUR == 0 then (n / HOUR, H_UNIT)
      else if n >= MINUTE && n % MINUTE == 0 then (n / MINUTE, M_UNIT)
      else if n >= SECOND && n % SECOND == 0 then (n / SECOND, S_UNIT)
      else (n, MS_UNIT);
    ParseOfUnits(value, suffix);
    assert PrintedAs(n, value, suffix);
  }

  // ---- What a written duration says ------------------------------------------------

  predicate Blank(t: Text) {
    forall i | 0 <= i < |t| :: IsSpace(t[i])
  }

  /** The units and their milliseconds. */
  predicate UnitMeans(suffix: Text, factor: nat) {
    || (suffix == Units("ms") && factor == 1)
    || (suffix == Units("s") && factor == 1_000)
    || (suffix == Units("m") && factor == 60 * 1_000)
    || (suffix == Units("h") && factor == 60 * 60 * 1_000)
    || (suffix == Units("d") && factor == 24 * 60 * 60 * 1_000)
  }

  /** Digits and a unit, with nothing but blanks around. */
  ghost predicate Says(text: Text, before: Text, digits: Text, suffix: Text, after: Text) {
    text == before + digits + suffix + after && Blank(before) && Blank(after) && digits != [] &&
      forall i :: 0 <= i < |digits| ==> IsDigit(digits[i])
  }

  lemma MultiplierExactly(suffix: Text, factor: nat)
    ensures Multiplier(suffix) == Some(factor) <==> UnitMeans(suffix, factor)
  {
    assert Units("ms") == MS_UNIT && Units("s") == S_UNIT && Units("m") == M_UNIT;
    assert Units("h") == H_UNIT && Units("d") == D_UNIT;
    assert MS_UNIT[0] == M_UNIT[0] && |MS_UNIT| == 2;
  }

  lemma {:induction false} TrimStartOf(before: Text, t: Text)
    requires Blank(before) && t != [] && !IsSpace(t[0])
    ensures TrimStart(before + t) == t
  {
    if before == [] {
      assert before + t == t;
    } else {
      TrimStartOf(before[1..], t);
      assert (before + t)[1..] == before[1..] + t;
    }
  }

  lemma {:induction false} TrimEndOf(t: Text, after: Text)
    requires Blank(after) && t != [] && !IsSpace(t[|t| - 1])
    ensures TrimEnd(t + after) == t
  {
    if after == [] {
      assert t + after == t;
    } else {
      TrimEndOf(t, after[..|after| - 1]);
      assert (t + after)[..|t + after| - 1] == t + after[..|after| - 1];
    }
  }

  lemma {:induction false} TrimStartSplits(t: Text) returns (before: Text)
    ensures t == before + TrimStart(t) && Blank(before)
  {
    before := [];
    if t != [] && IsSpace(t[0]) {
      var more := TrimStartSplits(t[1..]);
      before := [t[0]] + more;
      assert t == [t[0]] + t[1..];
    }
  }

  lemma {:induction false} TrimEndSplits(t: Text) returns (after: Text)
    ensures t == TrimEnd(t) + after && Blank(after)
  {
    after := [];
    if t != [] && IsSpace(t[|t| - 1]) {
      var more := TrimEndSplits(t[..|t| - 1]);
      after := more + [t[|t| - 1]];
      assert t == t[..|t| - 1] + [t[|t| - 1]];
    }
  }

  /** A text is a duration exactly when it is digits and a unit between blanks, and
      then the number times the unit. */
  lemma WrittenExactly(text: Text, n: nat)
    ensures ParseDuration(Written(text)) == Some(n) <==>
      exists before, digits, suffix, after, factor: nat ::
        Says(text, before, digits, suffix, after) && UnitMeans(suffix, factor) && n == DecimalValue(digits) * factor
  {
    if ParseDuration(Written(text)) == Some(n) {
      var before, digits, suffix, after, factor := WrittenSays(text);
      hide *;
    }
    if before, digits, suffix, after, factor: nat :|
      Says(text, before, digits, suffix, after) && UnitMeans(suffix, factor) && n == DecimalValue(digits) * factor
    {
      WrittenParses(text, before, digits, suffix, after, factor);
      hide *;
    }
  }

  lemma WrittenSays(text: Text) returns (before: Text, digits: Text, suffix: Text, after: Text, factor: nat)
    requires ParseDuration(Written(text)).Some?
    ensures Says(text, before, digits, suffix, after) && UnitMeans(suffix, factor)
    ensures ParseDuration(Written(text)) == Some(DecimalValue(digits) * factor)
  {
    hide Multiplier, UnitMeans, DecimalValue, TrimStart, TrimEnd, DigitPrefix, IsSpace;
    var t := TrimEnd(TrimStart(text));
    var k := DigitPrefix(t);
    before := TrimStartSplits(text);
    after := TrimEndSplits(TrimStart(text));
    digits, suffix, factor := t[..k], t[k..], Multiplier(t[k..]).value;
    MultiplierExactly(suffix, factor);
    assert t == digits + suffix;
    assert text == before + (t + after) == before + digits + suffix + after;
  }

  lemma WrittenParses(text: Text, before: Text, digits: Text, suffix: Text, after: Text, factor: nat)
    requires Says(text, before, digits, suffix, after) && UnitMeans(suffix, factor)
    ensures ParseDuration(Written(text)) == Some(DecimalValue(digits) * factor)
  {
    MultiplierExactly(suffix, factor);
    assert suffix != [] && !IsDigit(suffix[0]) && !IsSpace(suffix[|suffix| - 1]);
    var t := digits + suffix;
    assert text == before + (t + after);
    TrimStartOf(before, t + after);
    TrimEndOf(t, after);
    DigitPrefixOfAppend(digits, suffix);
    assert t[..|digits|] == digits && t[|digits|..] == suffix;
  }

  /** No larger unit that is not longer than `n` divides it. */
  ghost predicate Largest(n: nat, factor: nat) {
    && (n >= 24 * 60 * 60 * 1_000 && n % (24 * 60 * 60 * 1_000) == 0 ==> factor == 24 * 60 * 60 * 1_000)
    && (n >= 60 * 60 * 1_000 && n % (60 * 60 * 1_000) == 0 ==> factor >= 60 * 60 * 1_000)
    && (n >= 60 * 1_000 && n % (60 * 1_000) == 0 ==> factor >= 60 * 1_000)
    && (n >= 1_000 && n % 1_000 == 0 ==> factor >= 1_000)
  }

  /** A duration prints in the largest unit that is not longer and divides it, in
      milliseconds at the least. */
  lemma FormatsExactly(n: nat) returns (factor: nat, suffix: Text)
    ensures UnitMeans(suffix, factor) && Largest(n, factor) && factor > 0 && n % factor == 0
    ensures FormatDuration(n) == Decimal(n / factor) + suffix
  {
    factor, suffix :=
      (if n >= DAY && n % DAY == 0 then DAY
       else if n >= HOUR && n % HOUR == 0 then HOUR
       else if n >= MINUTE && n % MINUTE == 0 then MINUTE
       else if n >= SECOND && n % SECOND == 0 then SECOND else 1),
      (if n >= DAY && n % DAY == 0 then D_UNIT
       else if n >= HOUR && n % HOUR == 0 then H_UNIT
       else if n >= MINUTE && n % MINUTE == 0 then M_UNIT
       else if n >= SECOND && n % SECOND == 0 then S_UNIT else MS_UNIT);
    hide Decimal, Units;
    UnitTexts();
  }

  lemma UnitTexts()
    ensures Units("ms") == MS_UNIT && Units("s") == S_UNIT && Units("m") == M_UNIT
    ensures Units("h") == H_UNIT && Units("d") == D_UNIT
  {
  }
}
