/**
 Which URLs a target authorises. A scope pattern is turned into a regular expression by escaping and
 replacing characters in its text; this module gives that text a meaning and compares it with the
 glob language that the pattern is meant to denote.
 */
module UrlScope {
  import opened Options
  import opened Text

  predicate IsLineEnd(c: char) { c == '\n' || c == '\r' || c == '\U{2028}' || c == '\U{2029}' }

  predicate OneLine(s: string) { forall i | 0 <= i < |s| :: !IsLineEnd(s[i]) }

  // ---------------------------------------------------------------- from pattern to regular expression

  /** The characters that the first replacement puts a backslash before: all of the syntax but `*` and `?`. */
  predicate IsEscaped(c: char) {
    c == '.' || c == '+' || c == '^' || c == '$' || c == '{' || c == '}' || c == '(' || c == ')' || c == '|'
    || c == '[' || c == ']' || c == '\\'
  }

  function EscapeMeta(s: string): string {
    if s == "" then "" else (if IsEscaped(s[0]) then ['\\', s[0]] else [s[0]]) + EscapeMeta(s[1..])
  }

  function StarsToDotStars(s: string): string {
    if s == "" then "" else (if s[0] == '*' then ".*" else [s[0]]) + StarsToDotStars(s[1..])
  }

  function Body(pattern: string): string { StarsToDotStars(EscapeMeta(pattern)) }

  function RegexText(pattern: string): string { "^" + Body(pattern) + "$" }

  // ---------------------------------------------------------------- what a regular expression means

  datatype Atom = Exactly(c: char) | AnyInLine {
    predicate Accepts(d: char) { if AnyInLine? then !IsLineEnd(d) else c == d }
  }

  datatype Term = AtStart | AtEnd | Once(atom: Atom) | Repeated(atom: Atom) | Optional(atom: Atom)

  /** The characters that cannot stand for themselves in a regular expression: ECMAScript's SyntaxCharacter. */
  predicate IsSyntax(c: char) {
    c == '^' || c == '$' || c == '\\' || c == '.' || c == '*' || c == '+' || c == '?' || c == '(' || c == ')'
    || c == '[' || c == ']' || c == '{' || c == '}' || c == '|'
  }

  function Prepend(t: Term, rest: Option<seq<Term>>): Option<seq<Term>> {
    if rest.None? then None else Some([t] + rest.value)
  }

  /** Reads the text of a regular expression; None is the syntax error that `new RegExp` throws. */
  function ParseRegex(s: string): Option<seq<Term>>
    decreases |s|, 0
  {
    if s == "" then Some([])
    else if s[0] == '^' then Prepend(AtStart, ParseRegex(s[1..]))
    else if s[0] == '$' then Prepend(AtEnd, ParseRegex(s[1..]))
    else if s[0] == '.' then ParseQuantifier(AnyInLine, s[1..])
    else if s[0] == '\\' then
      if |s| > 1 && IsSyntax(s[1]) then ParseQuantifier(Exactly(s[1]), s[2..]) else None
    else if IsSyntax(s[0]) then None
    else ParseQuantifier(Exactly(s[0]), s[1..])
  }

  /** The quantifier after an atom; a `?` behind it makes it lazy, which does not change what matches. */
  function ParseQuantifier(a: Atom, s: string): Option<seq<Term>>
    decreases |s|, 1
  {
    if s == "" || (s[0] != '*' && s[0] != '?') then Prepend(Once(a), ParseRegex(s))
    else
      var t := if s[0] == '*' then Repeated(a) else Optional(a);
      Prepend(t, ParseRegex(if |s| > 1 && s[1] == '?' then s[2..] else s[1..]))
  }

  predicate AllAccepted(a: Atom, s: string) { forall i | 0 <= i < |s| :: a.Accepts(s[i]) }

  /** The terms match a stretch of the text that begins right after `before`; `rest` is what follows it. */
  predicate MatchesFrom(terms: seq<Term>, before: string, rest: string)
    decreases |terms|
  {
    if terms == [] then true
    else match terms[0]
      case AtStart => before == "" && MatchesFrom(terms[1..], before, rest)
      case AtEnd => rest == "" && MatchesFrom(terms[1..], before, rest)
      case Once(a) => rest != "" && a.Accepts(rest[0]) && MatchesFrom(terms[1..], before + rest[..1], rest[1..])
      case Optional(a) =>
        MatchesFrom(terms[1..], before, rest)
        || (rest != "" && a.Accepts(rest[0]) && MatchesFrom(terms[1..], before + rest[..1], rest[1..]))
      case Repeated(a) =>
        exists k | 0 <= k <= |rest| ::
          AllAccepted(a, rest[..k]) && MatchesFrom(terms[1..], before + rest[..k], rest[k..])
  }

  /** `RegExp.test`: the expression matches somewhere in the text. */
  predicate Finds(terms: seq<Term>, text: string) {
    exists k | 0 <= k <= |text| :: MatchesFrom(terms, text[..k], text[k..])
  }

  function TestPath(pattern: string, path: string): Option<bool> {
    var terms :- ParseRegex(RegexText(pattern));
    Some(Finds(terms, path))
  }

  // ---------------------------------------------------------------- the glob language

  /** The pieces between the stars. */
  function Pieces(pattern: string): seq<string> { Split(pattern, '*') }

  function Weave(pieces: seq<string>, gaps: seq<string>): string
    requires |pieces| == |gaps| + 1
    decreases |gaps|
  {
    if gaps == [] then pieces[0] else pieces[0] + gaps[0] + Weave(pieces[1..], gaps[1..])
  }

  ghost predicate Fills(pattern: string, gaps: seq<string>, path: string) {
    |Pieces(pattern)| == |gaps| + 1 && path == Weave(Pieces(pattern), gaps)
  }

  predicate EachOneLine(gaps: seq<string>) { forall i | 0 <= i < |gaps| :: OneLine(gaps[i]) }

  /** The path is the pattern with every star replaced by some text within a line. */
  ghost predicate InGlob(pattern: string, path: string) {
    exists gaps :: Fills(pattern, gaps, path) && EachOneLine(gaps)
  }

  // ---------------------------------------------------------------- pattern and glob agree without `?`

  /** The terms that a pattern is meant to become. */
  function Intended(pattern: string): seq<Term> {
    if pattern == "" then []
    else [if pattern[0] == '*' then Repeated(AnyInLine) else Once(Exactly(pattern[0]))] + Intended(pattern[1..])
  }

  /** The text that one character of the pattern becomes. */
  function Spelled(c: char): string {
    if c == '*' then ".*" else if IsEscaped(c) then ['\\', c] else [c]
  }

  lemma BodyStep(pattern: string)
    requires pattern != ""
    ensures Body(pattern) == Spelled(pattern[0]) + Body(pattern[1..])
  {
    var c, rest := pattern[0], EscapeMeta(pattern[1..]);
    if IsEscaped(c) {
      assert EscapeMeta(pattern) == ['\\', c] + rest;
      assert (['\\', c] + rest)[1..] == [c] + rest;
      assert ([c] + rest)[1..] == rest && c != '*';
      assert StarsToDotStars([c] + rest) == [c] + StarsToDotStars(rest);
      assert ['\\'] + ([c] + StarsToDotStars(rest)) == ['\\', c] + StarsToDotStars(rest);
    } else {
      assert ([c] + rest)[1..] == rest;
    }
  }

  /** The text of a pattern starts with `?` only if the pattern does, and never with `*`. */
  lemma FirstOfBody(pattern: string)
    ensures var text := Body(pattern) + "$";
            && text[0] != '*'
            && (text[0] == '?' <==> pattern != "" && pattern[0] == '?')
            && (text[0] == '?' ==> text[1..] == Body(pattern[1..]) + "$")
  {
    if pattern == "" {
      assert Body(pattern) + "$" == "$";
    } else {
      BodyStep(pattern);
      var text := Body(pattern) + "$";
      assert text == Spelled(pattern[0]) + (Body(pattern[1..]) + "$");
      assert text[0] == Spelled(pattern[0])[0];
    }
  }

  lemma ParseEnd()
    ensures ParseRegex("$") == Some([AtEnd])
  {
    assert "$"[1..] == "";
    assert [AtEnd] + [] == [AtEnd];
  }

  lemma StarQuantifies(a: Atom, tail: string)
    ensures ParseQuantifier(a, ['*'] + tail)
         == Prepend(Repeated(a), ParseRegex(if tail != "" && tail[0] == '?' then tail[1..] else tail))
  {
    var s := ['*'] + tail;
    assert s[1..] == tail && (|s| > 1 ==> s[1] == tail[0] && s[2..] == tail[1..]);
  }

  lemma StarParses(tail: string)
    requires tail != "" && tail[0] != '?'
    ensures ParseRegex(".*" + tail) == Prepend(Repeated(AnyInLine), ParseRegex(tail))
  {
    StarQuantifies(AnyInLine, tail);
    var text := ".*" + tail;
    assert text[0] == '.' && text[1..] == ['*'] + tail;
    assert ParseRegex(text) == ParseQuantifier(AnyInLine, ['*'] + tail);
  }

  lemma CharacterParses(c: char, tail: string)
    requires c != '*' && c != '?' && tail != "" && tail[0] != '?' && tail[0] != '*'
    ensures ParseRegex(Spelled(c) + tail) == Prepend(Once(Exactly(c)), ParseRegex(tail))
  {
    var text := Spelled(c) + tail;
    if IsEscaped(c) {
      assert text[0] == '\\' && text[1] == c && text[2..] == tail;
    } else {
      assert text[0] == c && text[1..] == tail;
    }
  }

  lemma {:induction false} BodyParses(pattern: string)
    requires '?' !in pattern
    ensures ParseRegex(Body(pattern) + "$") == Some(Intended(pattern) + [AtEnd])
  {
    if pattern == "" {
      ParseEnd();
      assert Body(pattern) + "$" == "$";
      assert Intended(pattern) + [AtEnd] == [AtEnd];
    } else {
      hide ParseRegex, IsEscaped;
      var c, tail := pattern[0], Body(pattern[1..]) + "$";
      BodyParses(pattern[1..]);
      BodyStep(pattern);
      FirstOfBody(pattern[1..]);
      assert c in pattern;
      assert Body(pattern) + "$" == Spelled(c) + tail;
      if c == '*' { StarParses(tail); } else { CharacterParses(c, tail); }
      assert Intended(pattern) + [AtEnd] == Intended(pattern)[..1] + (Intended(pattern[1..]) + [AtEnd]);
    }
  }

  lemma WeaveStep(first: string, rest: seq<string>, gaps: seq<string>)
    requires |rest| == |gaps| && gaps != []
    ensures Weave([first] + rest, gaps) == first + gaps[0] + Weave(rest, gaps[1..])
  {
    assert ([first] + rest)[1..] == rest;
  }

  lemma WeaveGlue(c: string, first: string, rest: seq<string>, gaps: seq<string>)
    requires |rest| == |gaps|
    ensures Weave([c + first] + rest, gaps) == c + Weave([first] + rest, gaps)
  {
    if gaps != [] {
      WeaveStep(c + first, rest, gaps);
      WeaveStep(first, rest, gaps);
      hide *;
      var later := Weave(rest, gaps[1..]);
      assert (c + first) + gaps[0] + later == c + (first + gaps[0] + later);
    }
  }

  lemma WeaveOfPlain(pattern: string, gaps: seq<string>)
    requires pattern != "" && pattern[0] != '*' && |Pieces(pattern[1..])| == |gaps| + 1
    ensures |Pieces(pattern)| == |gaps| + 1
    ensures Weave(Pieces(pattern), gaps) == [pattern[0]] + Weave(Pieces(pattern[1..]), gaps)
  {
    var rest, c := Pieces(pattern[1..]), [pattern[0]];
    assert Pieces(pattern) == [c + rest[0]] + rest[1..];
    WeaveGlue(c, rest[0], rest[1..], gaps);
    hide *;
    assert rest == [rest[0]] + rest[1..];
  }

  lemma GlobOfPlain(pattern: string, path: string)
    requires pattern != "" && pattern[0] != '*'
    ensures InGlob(pattern, path) <==> path != "" && path[0] == pattern[0] && InGlob(pattern[1..], path[1..])
  {
    if InGlob(pattern, path) {
      var gaps :| Fills(pattern, gaps, path) && EachOneLine(gaps);
      assert |Pieces(pattern)| == |Pieces(pattern[1..])|;
      WeaveOfPlain(pattern, gaps);
      hide Pieces;
      hide Weave;
      assert path[1..] == Weave(Pieces(pattern[1..]), gaps);
      assert Fills(pattern[1..], gaps, path[1..]);
    }
    if path != "" && path[0] == pattern[0] && InGlob(pattern[1..], path[1..]) {
      var gaps :| Fills(pattern[1..], gaps, path[1..]) && EachOneLine(gaps);
      WeaveOfPlain(pattern, gaps);
      hide Pieces;
      hide Weave;
      assert path == [pattern[0]] + path[1..];
      assert Fills(pattern, gaps, path);
    }
  }

  lemma GlobOfStar(pattern: string, path: string)
    requires pattern != "" && pattern[0] == '*'
    ensures InGlob(pattern, path)
       <==> exists k | 0 <= k <= |path| :: OneLine(path[..k]) && InGlob(pattern[1..], path[k..])
  {
    if InGlob(pattern, path) {
      hide InGlob;
      var k := StarTakesGap(pattern, path);
    }
    if k :| 0 <= k <= |path| && OneLine(path[..k]) && InGlob(pattern[1..], path[k..]) {
      StarGivesGap(pattern, path, k);
    }
  }

  lemma StarTakesGap(pattern: string, path: string) returns (k: nat)
    requires pattern != "" && pattern[0] == '*' && InGlob(pattern, path)
    ensures k <= |path| && OneLine(path[..k]) && InGlob(pattern[1..], path[k..])
  {
    var rest := Pieces(pattern[1..]);
    var gaps :| Fills(pattern, gaps, path) && EachOneLine(gaps);
    assert Pieces(pattern) == [""] + rest && Pieces(pattern)[1..] == rest;
    hide Pieces;
    k := |gaps[0]|;
    var later := Weave(rest, gaps[1..]);
    assert path == "" + gaps[0] + later;
    hide Weave;
    assert path[..k] == gaps[0] && path[k..] == later;
    assert EachOneLine(gaps[1..]);
    assert Fills(pattern[1..], gaps[1..], path[k..]);
  }

  lemma StarGivesGap(pattern: string, path: string, k: nat)
    requires pattern != "" && pattern[0] == '*'
    requires k <= |path| && OneLine(path[..k]) && InGlob(pattern[1..], path[k..])
    ensures InGlob(pattern, path)
  {
    var rest := Pieces(pattern[1..]);
    assert Pieces(pattern) == [""] + rest && Pieces(pattern)[1..] == rest;
    hide Pieces;
    var later :| Fills(pattern[1..], later, path[k..]) && EachOneLine(later);
    var gaps := [path[..k]] + later;
    assert gaps[1..] == later;
    assert Weave(Pieces(pattern), gaps) == "" + path[..k] + Weave(rest, later);
    hide Weave;
    assert path == "" + path[..k] + path[k..];
    assert Fills(pattern, gaps, path) && EachOneLine(gaps);
  }

  lemma {:induction false} IntendedMatchesGlob(pattern: string, before: string, rest: string)
    ensures MatchesFrom(Intended(pattern) + [AtEnd], before, rest) <==> InGlob(pattern, rest)
    decreases |pattern|
  {
    var terms := Intended(pattern) + [AtEnd];
    if pattern == "" {
      assert terms == [AtEnd] && terms[1..] == [];
      if rest == "" {
        assert Fills(pattern, [], rest);
      }
    } else {
      assert terms[1..] == Intended(pattern[1..]) + [AtEnd];
      if pattern[0] == '*' {
        GlobOfStar(pattern, rest);
        assert terms[0] == Repeated(AnyInLine);
        forall k | 0 <= k <= |rest|
          ensures MatchesFrom(terms[1..], before + rest[..k], rest[k..]) <==> InGlob(pattern[1..], rest[k..])
          ensures AllAccepted(AnyInLine, rest[..k]) <==> OneLine(rest[..k])
        {
          IntendedMatchesGlob(pattern[1..], before + rest[..k], rest[k..]);
        }
      } else {
        GlobOfPlain(pattern, rest);
        assert terms[0] == Once(Exactly(pattern[0]));
        if rest != "" {
          IntendedMatchesGlob(pattern[1..], before + rest[..1], rest[1..]);
        }
      }
    }
  }

  lemma PatternDenotesGlob(pattern: string, path: string)
    requires '?' !in pattern
    ensures TestPath(pattern, path) == Some(InGlob(pattern, path))
  {
    BodyParses(pattern);
    var text := RegexText(pattern);
    assert text[0] == '^' && text[1..] == Body(pattern) + "$";
    var terms := [AtStart] + (Intended(pattern) + [AtEnd]);
    assert ParseRegex(text) == Some(terms);
    assert terms[1..] == Intended(pattern) + [AtEnd];
    forall k | 0 <= k <= |path|
      ensures MatchesFrom(terms, path[..k], path[k..]) <==> k == 0 && InGlob(pattern, path)
    {
      if k == 0 {
        assert path[..0] == "" && path[0..] == path;
        IntendedMatchesGlob(pattern, "", path);
      }
    }
    if InGlob(pattern, path) {
      assert MatchesFrom(terms, path[..0], path[0..]);
    }
  }

  /** On a path within one line, what a star stands for is not restricted at all. */
  lemma {:induction false} GapsOfOneLine(pieces: seq<string>, gaps: seq<string>)
    requires |pieces| == |gaps| + 1 && OneLine(Weave(pieces, gaps))
    ensures EachOneLine(gaps)
    decreases |gaps|
  {
    if gaps != [] {
      var rest := Weave(pieces[1..], gaps[1..]);
      var all := Weave(pieces, gaps);
      assert all == pieces[0] + gaps[0] + rest;
      forall i | 0 <= i < |gaps[0]| ensures !IsLineEnd(gaps[0][i]) {
        assert all[|pieces[0]| + i] == gaps[0][i];
      }
      forall i | 0 <= i < |rest| ensures !IsLineEnd(rest[i]) {
        assert all[|pieces[0]| + |gaps[0]| + i] == rest[i];
      }
      GapsOfOneLine(pieces[1..], gaps[1..]);
      forall i | 0 <= i < |gaps| ensures OneLine(gaps[i]) {
        if i > 0 { assert gaps[i] == gaps[1..][i - 1]; }
      }
    }
  }

  lemma PathInGlob(pattern: string, path: string)
    requires OneLine(path)
    ensures InGlob(pattern, path) <==> exists gaps :: Fills(pattern, gaps, path)
  {
    forall gaps | Fills(pattern, gaps, path) ensures EachOneLine(gaps) {
      GapsOfOneLine(Pieces(pattern), gaps);
    }
  }

  // ---------------------------------------------------------------- and disagree with it

  /** The pattern without its stars and question marks. */
  function Bare(pattern: string): string {
    if pattern == "" then ""
    else (if pattern[0] == '*' || pattern[0] == '?' then "" else [pattern[0]]) + Bare(pattern[1..])
  }

  lemma {:induction false} BareHasNoMark(pattern: string)
    ensures '?' !in Bare(pattern)
  {
    if pattern != "" { BareHasNoMark(pattern[1..]); }
  }

  lemma {:induction false} GlobKeepsMarks(pattern: string, path: string)
    requires '?' in pattern && InGlob(pattern, path)
    ensures '?' in path
    decreases |pattern|
  {
    if pattern[0] == '*' {
      GlobOfStar(pattern, path);
      var k :| 0 <= k <= |path| && OneLine(path[..k]) && InGlob(pattern[1..], path[k..]);
      assert '?' in pattern[1..];
      GlobKeepsMarks(pattern[1..], path[k..]);
    } else {
      GlobOfPlain(pattern, path);
      if pattern[0] != '?' {
        assert '?' in pattern[1..];
        GlobKeepsMarks(pattern[1..], path[1..]);
      }
    }
  }

  /** One term in front: enough that it can skip or take the character. */
  lemma Skips(t: Term, terms: seq<Term>, before: string, rest: string)
    requires t.Repeated? || t.Optional?
    requires MatchesFrom(terms, before, rest)
    ensures MatchesFrom([t] + terms, before, rest)
  {
    assert ([t] + terms)[1..] == terms;
    assert rest[..0] == "" && rest[0..] == rest && before + "" == before;
    if t.Repeated? {
      assert AllAccepted(t.atom, rest[..0]) && MatchesFrom(terms, before + rest[..0], rest[0..]);
    }
  }

  lemma Takes(t: Term, terms: seq<Term>, before: string, c: char, rest: string)
    requires t == Once(Exactly(c)) || t == Optional(Exactly(c))
    requires MatchesFrom(terms, before + [c], rest)
    ensures MatchesFrom([t] + terms, before, [c] + rest)
  {
    assert ([t] + terms)[1..] == terms;
    assert ([c] + rest)[..1] == [c] && ([c] + rest)[1..] == rest;
  }

  /** Whenever the regular expression compiles, it accepts the bare pattern. */
  lemma {:induction false} BareMatches(pattern: string, before: string)
    ensures var terms := ParseRegex(Body(pattern) + "$");
            terms.Some? ==> MatchesFrom(terms.value, before, Bare(pattern))
    decreases |pattern|, 0
  {
    var text := Body(pattern) + "$";
    if pattern == "" {
      assert text == "$";
      ParseEnd();
    } else {
      var c, tail := pattern[0], Body(pattern[1..]) + "$";
      BodyStep(pattern);
      assert text == Spelled(c) + tail;
      if c == '*' {
        assert text[0] == '.' && text[1..] == ['*'] + tail;
        StarMatches(pattern[1..], before);
        assert Bare(pattern) == Bare(pattern[1..]);
      } else if c == '?' {
        assert text[0] == '?' && IsSyntax('?');
      } else {
        if IsEscaped(c) {
          assert text[0] == '\\' && text[1] == c && text[2..] == tail;
        } else {
          assert text[0] == c && text[1..] == tail;
        }
        CharacterMatches(c, pattern[1..], before);
      }
    }
  }

  lemma {:induction false} StarMatches(pattern: string, before: string)
    ensures var terms := ParseQuantifier(AnyInLine, ['*'] + (Body(pattern) + "$"));
            terms.Some? ==> MatchesFrom(terms.value, before, Bare(pattern))
    decreases |pattern|, 1
  {
    var later := if pattern != "" && pattern[0] == '?' then pattern[1..] else pattern;
    FirstOfBody(pattern);
    StarQuantifies(AnyInLine, Body(pattern) + "$");
    BareMatches(later, before);
    assert Bare(pattern) == Bare(later);
    var rest := ParseRegex(Body(later) + "$");
    hide ParseRegex, ParseQuantifier, Body, Bare, MatchesFrom;
    if rest.Some? {
      Skips(Repeated(AnyInLine), rest.value, before, Bare(pattern));
    }
  }

  lemma {:induction false} CharacterMatches(c: char, pattern: string, before: string)
    ensures var terms := ParseQuantifier(Exactly(c), Body(pattern) + "$");
            terms.Some? ==> MatchesFrom(terms.value, before, [c] + Bare(pattern))
    decreases |pattern|, 1
  {
    var text := Body(pattern) + "$";
    FirstOfBody(pattern);
    var optional := pattern != "" && pattern[0] == '?';
    var lazily := optional && |pattern| > 1 && pattern[1] == '?';
    if optional { FirstOfBody(pattern[1..]); }
    var later := if lazily then pattern[2..] else if optional then pattern[1..] else pattern;
    assert lazily ==> pattern[1..][1..] == pattern[2..];
    assert Bare(pattern) == Bare(later);
    BareMatches(later, before + [c]);
    var rest := ParseRegex(Body(later) + "$");
    if optional {
      assert text[0] == '?' && text[1..] == Body(pattern[1..]) + "$";
      assert lazily ==> text[2..] == text[1..][1..];
      if rest.Some? {
        Takes(Optional(Exactly(c)), rest.value, before, c, Bare(later));
      }
    } else if rest.Some? {
      Takes(Once(Exactly(c)), rest.value, before, c, Bare(later));
    }
  }

  /** A `?` in a pattern is left to act as a quantifier: the bare pattern then matches, and is outside the glob. */
  lemma MarkBreaksPattern(pattern: string)
    requires '?' in pattern
    ensures TestPath(pattern, Bare(pattern)) != Some(InGlob(pattern, Bare(pattern)))
  {
    var path, text := Bare(pattern), RegexText(pattern);
    BareHasNoMark(pattern);
    if InGlob(pattern, path) { GlobKeepsMarks(pattern, path); }
    assert text[0] == '^' && text[1..] == Body(pattern) + "$";
    var rest := ParseRegex(Body(pattern) + "$");
    if rest.Some? {
      BareMatches(pattern, "");
      var terms := [AtStart] + rest.value;
      assert terms[1..] == rest.value;
      assert path[..0] == "" && path[0..] == path;
      assert MatchesFrom(terms, path[..0], path[0..]);
    }
  }

  /** The regular expression of a pattern denotes the pattern's glob language exactly when no `?` occurs in it. */
  lemma PatternDenotesGlobIff(pattern: string)
    ensures (forall path :: TestPath(pattern, path) == Some(InGlob(pattern, path))) <==> '?' !in pattern
  {
    if '?' in pattern {
      MarkBreaksPattern(pattern);
    } else {
      forall path ensures TestPath(pattern, path) == Some(InGlob(pattern, path)) {
        PatternDenotesGlob(pattern, path);
      }
    }
  }

  /** For example `/a?` lets `/` through. */
  lemma MarkExample()
    ensures TestPath("/a?", "/") == Some(true) && !InGlob("/a?", "/")
  {
    if InGlob("/a?", "/") { GlobKeepsMarks("/a?", "/"); }
    ExampleParses();
    ExampleFinds();
    hide ParseRegex, RegexText, InGlob, Finds;
  }

  lemma ExampleFinds()
    ensures Finds([AtStart, Once(Exactly('/')), Optional(Exactly('a')), AtEnd], "/")
  {
    var atoms := [Optional(Exactly('a')), AtEnd];
    var terms := [AtStart, Once(Exactly('/'))] + atoms;
    assert MatchesFrom([AtEnd], "/", "");
    Skips(Optional(Exactly('a')), [AtEnd], "/", "");
    assert "" + ['/'] == "/" && ['/'] + "" == "/";
    assert [Optional(Exactly('a'))] + [AtEnd] == atoms;
    Takes(Once(Exactly('/')), atoms, "", '/', "");
    assert terms[1..] == [Once(Exactly('/'))] + atoms;
    assert MatchesFrom(terms, "", "/");
    assert "/"[..0] == "" && "/"[0..] == "/";
    hide MatchesFrom;
    assert terms == [AtStart, Once(Exactly('/')), Optional(Exactly('a')), AtEnd];
    assert Finds(terms, "/");
  }

  /** And `?` alone does not compile. */
  lemma MarkDoesNotCompile()
    ensures forall path :: TestPath("?", path) == None
  {
    BodyStep("?");
    assert Body("") == "";
    assert RegexText("?") == "^?$";
    assert "^?$"[1..] == "?$";
    assert ParseRegex("?$") == None;
  }

  lemma ExampleText()
    ensures RegexText("/a?") == "^/a?$"
  {
    BodyStep("/a?"); BodyStep("a?"); BodyStep("?");
    assert Body("") == "";
    hide Body;
    assert "/a?"[1..] == "a?" && "a?"[1..] == "?" && "?"[1..] == "";
    assert Body("?") == ['?'] + "";
    assert Body("a?") == ['a'] + (['?'] + "");
    assert Body("/a?") == ['/'] + (['a'] + (['?'] + ""));
  }

  lemma MarkedParses()
    ensures ParseRegex("a?$") == Some([Optional(Exactly('a')), AtEnd])
  {
    ParseEnd();
    assert "a?$"[1..] == "?$" && "?$"[1..] == "$";
    assert ParseRegex("a?$") == ParseQuantifier(Exactly('a'), "?$");
    assert ParseQuantifier(Exactly('a'), "?$") == Prepend(Optional(Exactly('a')), ParseRegex("$"));
    hide ParseRegex, ParseQuantifier;
    assert [Optional(Exactly('a'))] + [AtEnd] == [Optional(Exactly('a')), AtEnd];
  }

  lemma ExampleParses()
    ensures RegexText("/a?") == "^/a?$"
    ensures ParseRegex("^/a?$") == Some([AtStart, Once(Exactly('/')), Optional(Exactly('a')), AtEnd])
  {
    ExampleText();
    ParseEnd();
    var terms := [Optional(Exactly('a')), AtEnd];
    MarkedParses();
    assert ParseRegex("/a?$") == Some([Once(Exactly('/'))] + terms) by {
      CharacterParses('/', "a?$");
      hide ParseRegex;
      assert Spelled('/') + "a?$" == "/a?$";
    }
    assert "^/a?$"[1..] == "/a?$";
    assert ParseRegex("^/a?$") == Prepend(AtStart, ParseRegex("/a?$"));
    hide ParseRegex;
    assert [AtStart] + ([Once(Exactly('/'))] + terms) == [AtStart, Once(Exactly('/')), Optional(Exactly('a')), AtEnd];
  }

  // ---------------------------------------------------------------- scope patterns

  const METHODS := {"GET", "POST", "PUT", "PATCH", "DELETE", "HEAD", "OPTIONS"}

  function UpperChar(c: char): char {
    if 'a' <= c <= 'z' then ((c as int) - 32) as char else c
  }

  /** Upper-casing, restricted to the ASCII letters. */
  function Upper(s: string): (r: string)
    ensures |r| == |s|
  {
    seq(|s|, i requires 0 <= i < |s| => UpperChar(s[i]))
  }

  datatype ScopePattern = ScopePattern(verb: string, path: string)

  const ANY_METHOD := "*"

  /** The text up to the first space. */
  /** Methods are compared without regard to case, and in no other way loosely. */
  lemma MethodsIgnoreCase(a: string, b: string)
    ensures Upper(a) == Upper(b) <==> |a| == |b| && forall i | 0 <= i < |a| :: SameLetter(a[i], b[i])
  {
    assert |a| == |b| ==> forall i | 0 <= i < |a| :: (Upper(a)[i] == Upper(b)[i] <==> SameLetter(a[i], b[i]));
  }

  predicate IsMethod(word: string) {
    word == "GET" || word == "POST" || word == "PUT" || word == "PATCH" || word == "DELETE" || word == "HEAD"
    || word == "OPTIONS"
  }

  function FirstWord(s: string): (r: string)
    ensures |r| <= |s| && s[..|r|] == r
    ensures |r| < |s| ==> IsSpace(s[|r|])
    ensures forall i | 0 <= i < |r| :: !IsSpace(r[i])
  {
    if s == "" || IsSpace(s[0]) then "" else
      var rest := FirstWord(s[1..]);
      assert s[..|rest| + 1] == [s[0]] + rest;
      [s[0]] + rest
  }

  function ParseScopePattern(pattern: string): ScopePattern {
    var trimmed := Trim(pattern);
    var word := FirstWord(trimmed);
    var rest := TrimLeft(trimmed[|word|..]);
    if Upper(word) in METHODS && rest != "" && OneLine(rest)
    then ScopePattern(Upper(word), rest)
    else ScopePattern(ANY_METHOD, trimmed)
  }

  /** One way for the expression `^(method)\s+(.+)$`, case ignored, to match the text. */
  ghost predicate Splits(s: string, word: string, gap: string, rest: string) {
    && s == word + gap + rest
    && IsMethod(Upper(word))
    && gap != "" && (forall i | 0 <= i < |gap| :: IsSpace(gap[i]))
    && rest != "" && OneLine(rest)
  }

  lemma {:induction false} TrimLeftSplits(s: string) returns (gap: string)
    ensures s == gap + TrimLeft(s) && (forall i | 0 <= i < |gap| :: IsSpace(gap[i]))
    ensures TrimLeft(s) == "" || !IsSpace(TrimLeft(s)[0])
  {
    if s != "" && IsSpace(s[0]) {
      var more := TrimLeftSplits(s[1..]);
      gap := [s[0]] + more;
      assert s == [s[0]] + s[1..];
    } else {
      gap := "";
    }
  }

  lemma {:induction false} TrimLeftDrops(gap: string, rest: string)
    requires forall i | 0 <= i < |gap| :: IsSpace(gap[i])
    ensures TrimLeft(gap + rest) == TrimLeft(rest)
  {
    if gap == "" {
      assert gap + rest == rest;
    } else {
      assert (gap + rest)[1..] == gap[1..] + rest;
      TrimLeftDrops(gap[1..], rest);
    }
  }

  lemma {:induction false} TrimRightEnds(s: string)
    ensures TrimRight(s) == "" || !IsSpace(TrimRight(s)[|TrimRight(s)| - 1])
  {
    if s != "" && IsSpace(s[|s| - 1]) { TrimRightEnds(s[..|s| - 1]); }
  }

  lemma MethodsHaveNoSpace(word: string)
    requires Upper(word) in METHODS
    ensures forall i | 0 <= i < |word| :: !IsSpace(word[i])
  {
    forall i | 0 <= i < |word| ensures !IsSpace(word[i]) {
      assert 'A' <= Upper(word)[i] <= 'Z';
      assert Upper(word)[i] == UpperChar(word[i]);
    }
  }

  lemma {:induction false} FirstWordIs(word: string, after: string)
    requires forall i | 0 <= i < |word| :: !IsSpace(word[i])
    requires after != "" && IsSpace(after[0])
    ensures FirstWord(word + after) == word
  {
    if word == "" {
      assert word + after == after;
    } else {
      assert (word + after)[1..] == word[1..] + after;
      FirstWordIs(word[1..], after);
    }
  }

  /** What is left of a match, once the spaces in front of it are gone too. */
  lemma SplitLeaves(s: string, word: string, gap: string, rest: string)
    requires Splits(s, word, gap, rest) && !IsSpace(s[|s| - 1])
    ensures FirstWord(s) == word && TrimLeft(s[|word|..]) == TrimLeft(rest)
    ensures TrimLeft(rest) != "" && OneLine(TrimLeft(rest))
  {
    MethodsHaveNoSpace(word);
    assert s == word + (gap + rest);
    FirstWordIs(word, gap + rest);
    assert s[|word|..] == gap + rest;
    TrimLeftDrops(gap, rest);
    var lead := TrimLeftSplits(rest);
    var kept := TrimLeft(rest);
    assert rest[|rest| - 1] == s[|s| - 1];
    forall i | 0 <= i < |kept| ensures !IsLineEnd(kept[i]) {
      assert kept[i] == rest[|lead| + i];
    }
  }

  /**
   A pattern names a method exactly when the trimmed text matches the expression, and then the path is
   what the expression's last group holds, which the greedy spaces make free of leading spaces.
   */
  lemma MethodPrefix(pattern: string)
    ensures ParseScopePattern(pattern).verb != ANY_METHOD
       <==> exists word, gap, rest :: Splits(Trim(pattern), word, gap, rest)
    ensures forall word, gap, rest | Splits(Trim(pattern), word, gap, rest) ::
              ParseScopePattern(pattern) == ScopePattern(Upper(word), TrimLeft(rest))
    ensures ParseScopePattern(pattern).verb == ANY_METHOD ==> ParseScopePattern(pattern).path == Trim(pattern)
  {
    forall word, gap, rest | Splits(Trim(pattern), word, gap, rest)
      ensures ParseScopePattern(pattern) == ScopePattern(Upper(word), TrimLeft(rest)) && Upper(word) != ANY_METHOD
    {
      PrefixIsFound(pattern, word, gap, rest);
    }
    if ParseScopePattern(pattern).verb != ANY_METHOD {
      var word, gap, rest := PrefixIsThere(pattern);
    }
  }

  lemma PrefixIsFound(pattern: string, word: string, gap: string, rest: string)
    requires Splits(Trim(pattern), word, gap, rest)
    ensures ParseScopePattern(pattern) == ScopePattern(Upper(word), TrimLeft(rest)) && Upper(word) != ANY_METHOD
  {
    TrimRightEnds(TrimLeft(pattern));
    SplitLeaves(Trim(pattern), word, gap, rest);
    assert |Upper(word)| > 1;
  }

  lemma Rejoin(s: string, word: string, gap: string, rest: string)
    requires |word| <= |s| && s[..|word|] == word && s[|word|..] == gap + rest
    ensures s == word + gap + rest
  {
    assert s == s[..|word|] + s[|word|..];
  }

  lemma PrefixIsThere(pattern: string) returns (word: string, gap: string, rest: string)
    requires ParseScopePattern(pattern).verb != ANY_METHOD
    ensures Splits(Trim(pattern), word, gap, rest)
  {
    var trimmed := Trim(pattern);
    rest := ParseScopePattern(pattern).path;
    word := FirstWord(trimmed);
    gap := TrimLeftSplits(trimmed[|word|..]);
    Rejoin(trimmed, word, gap, rest);
  }

  /** `some` over the patterns: the first match ends the search, and so does a pattern that does not compile. */
  function MatchesScope(patterns: seq<string>, verb: string, path: string): Option<bool> {
    if patterns == [] then Some(false)
    else
      var parsed := ParseScopePattern(patterns[0]);
      var hit :- TestPath(parsed.path, path);
      if (parsed.verb == ANY_METHOD || parsed.verb == Upper(verb)) && hit then Some(true)
      else MatchesScope(patterns[1..], verb, path)
  }

  /** The pattern's expression compiles; what it is tested on makes no difference to that. */
  predicate Compiles(pattern: string) { ParseRegex(RegexText(ParseScopePattern(pattern).path)).Some? }

  /** The pattern's method and expression both match. */
  predicate Hits(pattern: string, verb: string, path: string) {
    var parsed := ParseScopePattern(pattern);
    (parsed.verb == ANY_METHOD || parsed.verb == Upper(verb)) && TestPath(parsed.path, path) == Some(true)
  }

  /** Some pattern hits, and every pattern before it compiles. */
  ghost predicate Reached(patterns: seq<string>, verb: string, path: string) {
    exists i | 0 <= i < |patterns| :: Hits(patterns[i], verb, path) && forall j | 0 <= j < i :: Compiles(patterns[j])
  }

  /** Every pattern compiles and none hits. */
  ghost predicate Missed(patterns: seq<string>, verb: string, path: string) {
    forall i | 0 <= i < |patterns| :: Compiles(patterns[i]) && !Hits(patterns[i], verb, path)
  }

  /** The search finds the first hit unless a pattern before it does not compile. */
  lemma {:induction false} SearchIsExact(patterns: seq<string>, verb: string, path: string)
    ensures MatchesScope(patterns, verb, path) == Some(true) <==> Reached(patterns, verb, path)
    ensures MatchesScope(patterns, verb, path) == Some(false) <==> Missed(patterns, verb, path)
  {
    if patterns != [] {
      var rest := patterns[1..];
      SearchIsExact(rest, verb, path);
      FirstDecides(patterns, verb, path);
      hide ParseRegex, RegexText, ParseScopePattern, Finds, Upper, Reached, Missed;
    }
  }

  lemma FirstDecides(patterns: seq<string>, verb: string, path: string)
    requires patterns != []
    ensures Reached(patterns, verb, path)
       <==> Hits(patterns[0], verb, path) || (Compiles(patterns[0]) && Reached(patterns[1..], verb, path))
    ensures Missed(patterns, verb, path)
       <==> Compiles(patterns[0]) && !Hits(patterns[0], verb, path) && Missed(patterns[1..], verb, path)
  {
    hide Compiles, Hits;
    var rest := patterns[1..];
    assert forall i | 0 <= i < |rest| :: rest[i] == patterns[i + 1];
    if i :| 0 <= i < |rest| && Hits(rest[i], verb, path) && forall j | 0 <= j < i :: Compiles(rest[j]) {
      if Compiles(patterns[0]) {
        forall j | 0 <= j < i + 1 ensures Compiles(patterns[j]) {
          if j > 0 { assert patterns[j] == rest[j - 1]; }
        }
        assert Hits(patterns[i + 1], verb, path);
      }
    }
    if i :| 0 <= i < |patterns| && Hits(patterns[i], verb, path) && forall j | 0 <= j < i :: Compiles(patterns[j]) {
      if i > 0 { assert Hits(rest[i - 1], verb, path); }
    }
    if Missed(rest, verb, path) && Compiles(patterns[0]) && !Hits(patterns[0], verb, path) {
      forall i | 0 <= i < |patterns| ensures Compiles(patterns[i]) && !Hits(patterns[i], verb, path) {
        if i > 0 { assert patterns[i] == rest[i - 1]; }
      }
    }
  }

  /** What a scope pattern stands for. */
  ghost predicate Covers(pattern: string, verb: string, path: string) {
    var parsed := ParseScopePattern(pattern);
    (parsed.verb == ANY_METHOD || parsed.verb == Upper(verb)) && InGlob(parsed.path, path)
  }

  ghost predicate Covered(patterns: seq<string>, verb: string, path: string) {
    exists i | 0 <= i < |patterns| :: Covers(patterns[i], verb, path)
  }

  /** No pattern has a question mark. */
  predicate Plain(patterns: seq<string>) { forall i | 0 <= i < |patterns| :: '?' !in patterns[i] }

  lemma {:induction false} TrimKeepsPlain(s: string)
    ensures '?' !in s ==> '?' !in TrimLeft(s) && '?' !in TrimRight(s)
  {
    if s != "" { TrimKeepsPlain(s[1..]); TrimKeepsPlain(s[..|s| - 1]); }
  }

  lemma PathIsPlain(pattern: string)
    requires '?' !in pattern
    ensures '?' !in ParseScopePattern(pattern).path
  {
    TrimKeepsPlain(pattern);
    TrimKeepsPlain(TrimLeft(pattern));
    var trimmed := Trim(pattern);
    TrimKeepsPlain(trimmed[|FirstWord(trimmed)|..]);
  }

  lemma PlainPatternHits(pattern: string, verb: string, path: string)
    requires '?' !in pattern
    ensures Compiles(pattern) && (Hits(pattern, verb, path) <==> Covers(pattern, verb, path))
  {
    PathIsPlain(pattern);
    PatternDenotesGlob(ParseScopePattern(pattern).path, path);
    hide ParseScopePattern, ParseRegex, RegexText, Finds, InGlob;
  }

  /** Without question marks the search is membership in the union of the globs. */
  lemma ScopeIsTheUnion(patterns: seq<string>, verb: string, path: string)
    ensures Plain(patterns) ==> (Reached(patterns, verb, path) <==> Covered(patterns, verb, path))
    ensures Plain(patterns) ==> (Missed(patterns, verb, path) <==> !Covered(patterns, verb, path))
  {
    if Plain(patterns) {
      forall i | 0 <= i < |patterns|
        ensures Compiles(patterns[i]) && (Hits(patterns[i], verb, path) <==> Covers(patterns[i], verb, path))
      {
        PlainPatternHits(patterns[i], verb, path);
      }
      hide Compiles, Hits, Covers;
    }
  }

  // ---------------------------------------------------------------- the decision

  /** A URL as the URL parser leaves it; the port is empty when it is the protocol's own. */
  datatype Url = Url(protocol: string, hostname: string, port: string, pathname: string)

  datatype TargetScope = TargetScope(base: Option<Url>, allowed: seq<string>, excluded: seq<string>)

  /** PatternError is the uncaught SyntaxError of a pattern that does not compile. */
  datatype Ruling = Authorized | Malformed | UnsupportedProtocol | OtherAuthority | Excluded | OutOfScope | PatternError

  function DefaultPort(protocol: string): string {
    if protocol == "https:" then "443" else "80"
  }

  function PortOf(url: Url): string {
    if url.port != "" then url.port else DefaultPort(url.protocol)
  }

  predicate MatchesAuthority(url: Url, base: Url) {
    url.protocol == base.protocol && url.hostname == base.hostname && PortOf(url) == PortOf(base)
  }

  /** `assertUrlWithinAuthorizedTarget`; None stands for a text that the URL parser refuses. */
  function Rule(url: Option<Url>, verb: string, target: TargetScope): Ruling {
    if url.None? || target.base.None? then Malformed
    else if url.value.protocol != "http:" && url.value.protocol != "https:" then UnsupportedProtocol
    else if !MatchesAuthority(url.value, target.base.value) then OtherAuthority
    else
      var excluded := if target.excluded == [] then Some(false)
                      else MatchesScope(target.excluded, verb, url.value.pathname);
      if excluded.None? then PatternError
      else if excluded.value then Excluded
      else
        var allowed := if target.allowed == [] then Some(true)
                       else MatchesScope(target.allowed, verb, url.value.pathname);
        if allowed.None? then PatternError else if allowed.value then Authorized else OutOfScope
  }

  /** The same protocol, host and port, where no port and the protocol's own are the same port. */
  predicate SameAuthority(url: Url, base: Url) {
    && url.protocol == base.protocol && url.hostname == base.hostname
    && (|| url.port == base.port
        || (url.protocol == "https:" && {url.port, base.port} == {"", "443"})
        || (url.protocol == "http:" && {url.port, base.port} == {"", "80"}))
  }

  /** What a target authorises. */
  ghost predicate WithinScope(url: Url, verb: string, base: Url, target: TargetScope) {
    && url.protocol in {"http:", "https:"}
    && SameAuthority(url, base)
    && Missed(target.excluded, verb, url.pathname)
    && (target.allowed == [] || Reached(target.allowed, verb, url.pathname))
  }

  lemma AuthorityIsSame(url: Url, base: Url)
    requires url.protocol in {"http:", "https:"}
    ensures MatchesAuthority(url, base) <==> SameAuthority(url, base)
  {
    if url.protocol == base.protocol && PortOf(url) == PortOf(base) && url.port != base.port {
      assert url.port == "" || base.port == "";
    }
    if url.protocol == "https:" && {url.port, base.port} == {"", "443"} {
      assert "" in {url.port, base.port} && "443" in {url.port, base.port};
    }
    if url.protocol == "http:" && {url.port, base.port} == {"", "80"} {
      assert "" in {url.port, base.port} && "80" in {url.port, base.port};
    }
  }

  /** Every ruling if and only if: the order of the checks, and what each of them compares. */
  lemma RuleIsExact(url: Url, verb: string, base: Url, target: TargetScope)
    requires target.base == Some(base)
    ensures var ruling := Rule(Some(url), verb, target);
            var web := url.protocol == "http:" || url.protocol == "https:";
            var reached := target.excluded != [] && Reached(target.excluded, verb, url.pathname);
            var free := target.excluded == [] || Missed(target.excluded, verb, url.pathname);
            var here := web && SameAuthority(url, base);
            && (ruling == UnsupportedProtocol <==> !web)
            && (ruling == OtherAuthority <==> web && !SameAuthority(url, base))
            && (ruling == Excluded <==> here && reached)
            && (ruling == OutOfScope
                <==> here && free && target.allowed != [] && Missed(target.allowed, verb, url.pathname))
            && (ruling == Authorized
                <==> here && free && (target.allowed == [] || Reached(target.allowed, verb, url.pathname)))
            && ruling != Malformed
    ensures forall u: Option<Url>, t: TargetScope ::
              Rule(u, verb, t) == Malformed <==> u.None? || t.base.None?
  {
    hide Reached, Missed, MatchesScope, MatchesAuthority;
    SearchIsExact(target.excluded, verb, url.pathname);
    SearchIsExact(target.allowed, verb, url.pathname);
    if url.protocol == "http:" || url.protocol == "https:" { AuthorityIsSame(url, base); }
    hide SameAuthority;
  }

  /** For every target, and for targets without question marks in terms of the glob language only. */
  lemma AuthorizedIffWithinScope(url: Url, verb: string, base: Url, target: TargetScope)
    requires target.base == Some(base)
    ensures Rule(Some(url), verb, target) == Authorized <==> WithinScope(url, verb, base, target)
    ensures Plain(target.excluded) ==>
              (Missed(target.excluded, verb, url.pathname) <==> !Covered(target.excluded, verb, url.pathname))
    ensures Plain(target.allowed) ==>
              (Reached(target.allowed, verb, url.pathname) <==> Covered(target.allowed, verb, url.pathname))
    ensures Plain(target.allowed) && Plain(target.excluded) ==> Rule(Some(url), verb, target) != PatternError
  {
    hide Reached, Missed, MatchesScope, SameAuthority;
    RuleIsExact(url, verb, base, target);
    SearchIsExact(target.excluded, verb, url.pathname);
    SearchIsExact(target.allowed, verb, url.pathname);
    ScopeIsTheUnion(target.excluded, verb, url.pathname);
    ScopeIsTheUnion(target.allowed, verb, url.pathname);
    if target.excluded == [] { NothingExcluded(verb, url.pathname); }
  }

  lemma NothingExcluded(verb: string, path: string)
    ensures Missed([], verb, path)
  {}

  /** Every exclusion takes URLs away; every allowed pattern after the first gives URLs back. */
  lemma ScopeIsMonotone(url: Option<Url>, verb: string, target: TargetScope, pattern: string)
    ensures Rule(url, verb, target.(excluded := target.excluded + [pattern])) == Authorized ==>
              Rule(url, verb, target) == Authorized
    ensures (target.allowed != [] && Rule(url, verb, target) == Authorized) ==>
              Rule(url, verb, target.(allowed := target.allowed + [pattern])) == Authorized
  {
    if url.Some? && target.base.Some? {
      var u, base := url.value, target.base.value;
      AuthorizedIffWithinScope(u, verb, base, target);
      AuthorizedIffWithinScope(u, verb, base, target.(excluded := target.excluded + [pattern]));
      AuthorizedIffWithinScope(u, verb, base, target.(allowed := target.allowed + [pattern]));
      hide Rule, Missed, Reached, Covered, Plain;
      MoreMisses(target.excluded, pattern, verb, u.pathname);
      MoreReaches(target.allowed, pattern, verb, u.pathname);
    }
  }

  lemma MoreMisses(patterns: seq<string>, more: string, verb: string, path: string)
    ensures Missed(patterns + [more], verb, path) ==> Missed(patterns, verb, path)
  {
    hide Compiles, Hits;
    assert forall i | 0 <= i < |patterns| :: (patterns + [more])[i] == patterns[i];
  }

  lemma MoreReaches(patterns: seq<string>, more: string, verb: string, path: string)
    ensures Reached(patterns, verb, path) ==> Reached(patterns + [more], verb, path)
  {
    hide Compiles, Hits;
    if i :| 0 <= i < |patterns| && Hits(patterns[i], verb, path) && forall j | 0 <= j < i :: Compiles(patterns[j]) {
      assert (patterns + [more])[i] == patterns[i];
      assert forall j | 0 <= j < i :: (patterns + [more])[j] == patterns[j];
    }
  }
}
