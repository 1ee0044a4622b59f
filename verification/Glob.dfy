/** Globs and the regular expressions they compile to (glob.ts, and the second
    compiler in dependency-evaluator.ts). */
module Glob {
  import opened Wrappers
  import opened Text

  const STAR: Unit := 42
  const QUESTION: Unit := 63
  const DOT: Unit := 46
  const ESCAPE: Unit := 92

  /** What a pattern means: `*` any run, `?` any one code unit, else itself. */
  predicate GlobMatches(pattern: Text, value: Text) {
    if pattern == [] then value == []
    else if pattern[0] == STAR then exists i | 0 <= i <= |value| :: GlobMatches(pattern[1..], value[i..])
    else value != [] && (pattern[0] == QUESTION || pattern[0] == value[0]) && GlobMatches(pattern[1..], value[1..])
  }

  // ---- Regular expressions -------------------------------------------------

  /** The syntax characters of a pattern: ^ $ \ . * + ? ( ) [ ] { } | */
  predicate IsSyntax(u: Unit) {
    u in {94, 36, 92, 46, 42, 43, 63, 40, 41, 91, 93, 123, 125, 124}
  }

  lemma SyntaxExactly(u: Unit)
    ensures IsSyntax(u) <==> u in Units("^$.*+?()[]{}|") || u == 92
  {
    var all := Units("^$.*+?()[]{}|");
    assert all == [94, 36, 46, 42, 43, 63, 40, 41, 91, 93, 123, 125, 124];
  }

  datatype Regex = Empty | Literal(u: Unit) | AnyUnit | Then(first: Regex, second: Regex) | Many(body: Regex)

  /** Language membership. Anchored at both ends and dot-matches-all, as both
      compilers ask for. */
  ghost predicate Accepts(r: Regex, s: Text)
    decreases r, |s|
  {
    match r
    case Empty => s == []
    case Literal(u) => s == [u]
    case AnyUnit => |s| == 1
    case Then(a, b) => exists i :: 0 <= i <= |s| && Accepts(a, s[..i]) && Accepts(b, s[i..])
    case Many(b) => s == [] || exists i :: 0 < i <= |s| && Accepts(b, s[..i]) && Accepts(r, s[i..])
  }

  /** Reads the source text of a regular expression in the fragment the
      compilers emit: literals, escaped syntax characters, `.` and `.*`. */
  function ParseRegex(t: Text): Option<Regex> {
    if t == [] then Some(Empty)
    else if t[0] == ESCAPE then
      if |t| > 1 && IsSyntax(t[1]) then Sequence(Literal(t[1]), ParseRegex(t[2..])) else None
    else if t[0] == DOT then
      if |t| > 1 && t[1] == STAR then Sequence(Many(AnyUnit), ParseRegex(t[2..]))
      else Sequence(AnyUnit, ParseRegex(t[1..]))
    else if IsSyntax(t[0]) then None
    else Sequence(Literal(t[0]), ParseRegex(t[1..]))
  }

  function Sequence(first: Regex, rest: Option<Regex>): Option<Regex> {
    if rest.Some? then Some(Then(first, rest.value)) else None
  }

  // ---- The two compilers -----------------------------------------------------

  function EscapeLiteral(u: Unit): Text {
    if IsSyntax(u) then [ESCAPE, u] else [u]
  }

  /** What one pattern unit compiles to. */
  function CompileUnit(u: Unit): Text {
    if u == STAR then [DOT, STAR] else if u == QUESTION then [DOT] else EscapeLiteral(u)
  }

  function Compiled(pattern: Text): Text {
    if pattern == [] then [] else CompileUnit(pattern[0]) + Compiled(pattern[1..])
  }

  lemma {:induction false} CompiledSnoc(pattern: Text, u: Unit)
    ensures Compiled(pattern + [u]) == Compiled(pattern) + CompileUnit(u)
  {
    if pattern == [] {
      assert [u][1..] == [];
    } else {
      assert (pattern + [u])[1..] == pattern[1..] + [u];
      CompiledSnoc(pattern[1..], u);
    }
  }

  /** The policy layer's compiler: it walks the pattern and appends. */
  method GlobToRegex(pattern: Text) returns (out: Text)
    ensures out == Compiled(pattern)
  {
    out := [];
    for i := 0 to |pattern|
      invariant out == Compiled(pattern[..i])
    {
      var ch := pattern[i];
      CompiledSnoc(pattern[..i], ch);
      assert pattern[..i + 1] == pattern[..i] + [ch];
      if ch == STAR {
        out := out + [DOT, STAR];
      } else if ch == QUESTION {
        out := out + [DOT];
      } else {
        out := out + EscapeLiteral(ch);
      }
    }
    assert pattern[..|pattern|] == pattern;
  }

  /** The evaluator's compiler: it replaces each syntax character in place. */
  function ReplaceSyntax(pattern: Text): Text {
    if pattern == [] then []
    else
      var ch := pattern[0];
      (if !IsSyntax(ch) then [ch]
       else if ch == STAR then [DOT, STAR]
       else if ch == QUESTION then [DOT]
       else [ESCAPE, ch]) + ReplaceSyntax(pattern[1..])
  }

  lemma {:induction false} CompilersAgree(pattern: Text)
    ensures ReplaceSyntax(pattern) == Compiled(pattern)
  {
    if pattern != [] { CompilersAgree(pattern[1..]); }
  }

  // ---- Compilation preserves meaning -----------------------------------------

  function RegexOf(pattern: Text): Regex {
    if pattern == [] then Empty
    else
      Then(
        if pattern[0] == STAR then Many(AnyUnit) else if pattern[0] == QUESTION then AnyUnit else Literal(pattern[0]),
        RegexOf(pattern[1..]))
  }

  /** The emitted text is well formed and reads back as one atom per unit. */
  lemma {:induction false} CompiledParses(pattern: Text)
    ensures ParseRegex(Compiled(pattern)) == Some(RegexOf(pattern))
    ensures pattern == [] || Compiled(pattern)[0] != STAR
  {
    if pattern != [] {
      CompiledParses(pattern[1..]);
      var head, tail := CompileUnit(pattern[0]), Compiled(pattern[1..]);
      assert (head + tail)[|head|..] == tail;
      if pattern[1..] != [] { assert tail[0] != STAR; }
    }
  }

  lemma {:induction false} ManyAnyAcceptsAll(s: Text)
    ensures Accepts(Many(AnyUnit), s)
  {
    if s != [] {
      ManyAnyAcceptsAll(s[1..]);
      assert Accepts(AnyUnit, s[..1]);
    }
  }

  lemma {:induction false} RegexMeansGlob(pattern: Text, value: Text)
    ensures Accepts(RegexOf(pattern), value) <==> GlobMatches(pattern, value)
  {
    if pattern != [] {
      var r := RegexOf(pattern);
      if pattern[0] == STAR {
        forall i | 0 <= i <= |value|
          ensures Accepts(r.second, value[i..]) <==> GlobMatches(pattern[1..], value[i..])
          ensures Accepts(r.first, value[..i])
        {
          RegexMeansGlob(pattern[1..], value[i..]);
          ManyAnyAcceptsAll(value[..i]);
        }
      } else if value != [] {
        RegexMeansGlob(pattern[1..], value[1..]);
        assert value[..1] == [value[0]];
        assert Accepts(r.first, value[..1]) <==> (pattern[0] == QUESTION || pattern[0] == value[0]);
      }
    }
  }

  /** A glob and the regular expression either compiler builds for it accept
      the same values. */
  lemma CompilationPreservesMeaning(pattern: Text, value: Text)
    ensures ParseRegex(Compiled(pattern)).Some?
    ensures ReplaceSyntax(pattern) == Compiled(pattern)
    ensures Accepts(ParseRegex(Compiled(pattern)).value, value) <==> GlobMatches(pattern, value)
  {
    CompiledParses(pattern);
    CompilersAgree(pattern);
    RegexMeansGlob(pattern, value);
  }
}
