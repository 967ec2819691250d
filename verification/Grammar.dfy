// internal/dependency/dependency.go: the regular-expression fragments from which the v0 query
// texts are built, and what the expressions assembled from them match.

module Grammars {
  import opened Storing

  // --- character classes ---

  /** [[:word:]] */
  predicate Word(c: char) {
    '0' <= c <= '9' || 'A' <= c <= 'Z' || 'a' <= c <= 'z' || c == '_'
  }

  predicate TagChar(c: char) { Word(c) || c in "=:.-" }
  predicate ServiceNameChar(c: char) { Word(c) || c == '-' }
  predicate PlaceChar(c: char) { Word(c) || c in ".-" }
  predicate FilterChar(c: char) { Word(c) || c == ',' }

  /** The four expressions: `[tag.]name[@dc][~near][|filter]` and three that lack some of it. */
  datatype Kind = HealthServiceRe | CatalogServiceRe | CatalogNodeRe | CatalogNodesRe {
    predicate HasTag() { HealthServiceRe? || CatalogServiceRe? }
    predicate HasNear() { !CatalogNodeRe? }
    predicate HasFilter() { HealthServiceRe? }
  }

  /** The named groups of a match. A group that took no part is empty, as in Go's submatches. */
  datatype Groups = Groups(tag: string, name: string, dc: string, near: string, filter: string)

  predicate WellFormed(kind: Kind, g: Groups) {
    && (forall c :: c in g.tag ==> TagChar(c))
    && (g.tag != "" ==> kind.HasTag())
    && (match kind
        case CatalogNodesRe => g.name == ""
        case CatalogNodeRe => g.name != "" && forall c :: c in g.name ==> PlaceChar(c)
        case _ => g.name != "" && forall c :: c in g.name ==> ServiceNameChar(c))
    && (forall c :: c in g.dc ==> PlaceChar(c))
    && (forall c :: c in g.near ==> PlaceChar(c))
    && (g.near != "" ==> kind.HasNear())
    && (forall c :: c in g.filter ==> FilterChar(c))
    && (g.filter != "" ==> kind.HasFilter())
  }

  /** An optional group, written with its separator. */
  function Suffix(sep: char, text: string): string {
    if text == "" then "" else [sep] + text
  }

  function Tagged(tag: string, name: string): string {
    if tag == "" then name else tag + "." + name
  }

  function Text(g: Groups): string {
    Tagged(g.tag, g.name) + Suffix('@', g.dc) + Suffix('~', g.near) + Suffix('|', g.filter)
  }

  /** The whole of `s` matches the expression, with these groups. */
  predicate Matches(kind: Kind, s: string, g: Groups) {
    WellFormed(kind, g) && s == Text(g)
  }

  /** The classes, character by character. */
  lemma Classes(c: char)
    ensures Word(c) <==> c in LETTERS || c in DIGITS || c == '_'
    ensures ServiceNameChar(c) <==> Word(c) || c == '-'
    ensures PlaceChar(c) <==> ServiceNameChar(c) || c == '.'
    ensures TagChar(c) <==> PlaceChar(c) || c == '=' || c == ':'
    ensures FilterChar(c) <==> Word(c) || c == ','
  {
    LetterRange(c);
    DigitRange(c);
  }

  const DIGITS := "0123456789"
  const LOWER := "abcdefghijklmnopqrstuvwxyz"
  const UPPER := "ABCDEFGHIJKLMNOPQRSTUVWXYZ"
  const LETTERS := LOWER + UPPER

  lemma DigitRange(c: char)
    ensures c in DIGITS <==> '0' <= c <= '9'
  {
    assert |DIGITS| == 10 && forall i :: 0 <= i < 10 ==> DIGITS[i] as int == '0' as int + i;
    if '0' <= c <= '9' {
      assert DIGITS[c as int - '0' as int] == c;
    }
  }

  lemma LetterRange(c: char)
    ensures c in LETTERS <==> 'a' <= c <= 'z' || 'A' <= c <= 'Z'
  {
    assert |LOWER| == 26 && forall i :: 0 <= i < 26 ==> LOWER[i] as int == 'a' as int + i;
    assert |UPPER| == 26 && forall i :: 0 <= i < 26 ==> UPPER[i] as int == 'A' as int + i;
    if 'a' <= c <= 'z' {
      assert LOWER[c as int - 'a' as int] == c;
    }
    if 'A' <= c <= 'Z' {
      assert UPPER[c as int - 'A' as int] == c;
    }
  }

  // --- finding the match ---

  /** The text before and after the first separator. */
  function Cut(s: string, sep: char): (string, string) {
    if s == "" then ("", "")
    else if s[0] == sep then ("", s[1..])
    else
      var (before, after) := Cut(s[1..], sep);
      ([s[0]] + before, after)
  }

  /** The text before and after the last separator. */
  function CutLast(s: string, sep: char): (string, string)
    decreases |s|
  {
    if s == "" then ("", "")
    else
      var n := |s| - 1;
      if s[n] == sep then (s[..n], "")
      else
        var (before, after) := CutLast(s[..n], sep);
        (before, after + [s[n]])
  }

  function Match(kind: Kind, s: string): Option<Groups> {
    var (rest, filter) := Cut(s, '|');
    var (place, near) := Cut(rest, '~');
    var (full, dc) := Cut(place, '@');
    var (tag, name) := if kind.HasTag() then CutLast(full, '.') else ("", full);
    var g := Groups(tag, name, dc, near, filter);
    if Matches(kind, s, g) then Some(g) else None
  }

  lemma {:induction false} CutAt(a: string, sep: char, b: string)
    requires sep !in a
    ensures Cut(a + [sep] + b, sep) == (a, b)
    ensures Cut(a, sep) == (a, "")
  {
    if a == "" {
      assert a + [sep] + b == [sep] + b;
    } else {
      CutAt(a[1..], sep, b);
      assert (a + [sep] + b)[1..] == a[1..] + [sep] + b;
      assert a == [a[0]] + a[1..];
    }
  }

  lemma CutSuffix(a: string, sep: char, b: string)
    requires sep !in a
    ensures Cut(a + Suffix(sep, b), sep) == (a, b)
  {
    CutAt(a, sep, b);
    if b == "" {
      assert Suffix(sep, b) == "" && a + "" == a;
    } else {
      var rest := [sep] + b;
      assert Suffix(sep, b) == rest && a + rest == a + [sep] + b;
    }
  }

  lemma {:induction false} CutLastAt(a: string, sep: char, b: string)
    requires sep !in b
    ensures CutLast(a + [sep] + b, sep) == (a, b)
    ensures CutLast(b, sep) == ("", b)
    decreases |b|
  {
    if b == "" {
      assert (a + [sep] + b)[..|a|] == a;
    } else {
      var init := b[..|b| - 1];
      CutLastAt(a, sep, init);
      assert (a + [sep] + b)[..|a| + |b|] == a + [sep] + init;
      assert b == init + [b[|b| - 1]];
    }
  }

  lemma NoSeparators(kind: Kind, g: Groups)
    requires WellFormed(kind, g)
    ensures var full := Tagged(g.tag, g.name);
      && '@' !in full && '~' !in full && '|' !in full
      && '~' !in g.dc && '|' !in g.dc && '|' !in g.near
      && (kind.HasTag() ==> '.' !in g.name)
  {
  }

  lemma CutTag(kind: Kind, g: Groups)
    requires WellFormed(kind, g)
    ensures kind.HasTag() ==> CutLast(Tagged(g.tag, g.name), '.') == (g.tag, g.name)
    ensures !kind.HasTag() ==> g.tag == "" && Tagged(g.tag, g.name) == g.name
  {
    if kind.HasTag() {
      NoSeparators(kind, g);
      CutLastAt(g.tag, '.', g.name);
    }
  }

  /** Any way to match is the way found. */
  lemma MatchIsTheMatch(kind: Kind, s: string, g: Groups)
    requires Matches(kind, s, g)
    ensures Match(kind, s) == Some(g)
  {
    var full := Tagged(g.tag, g.name);
    NoSeparators(kind, g);
    CutSuffix(full + Suffix('@', g.dc) + Suffix('~', g.near), '|', g.filter);
    CutSuffix(full + Suffix('@', g.dc), '~', g.near);
    CutSuffix(full, '@', g.dc);
    CutTag(kind, g);
  }

  /** An expression matches in at most one way, so the order in which a regular-expression
      engine tries alternatives has no influence on the groups. */
  lemma Unambiguous(kind: Kind, s: string, g: Groups, h: Groups)
    requires Matches(kind, s, g) && Matches(kind, s, h)
    ensures g == h
  {
    MatchIsTheMatch(kind, s, g);
    MatchIsTheMatch(kind, s, h);
  }

  lemma MatchIff(kind: Kind, s: string)
    ensures Match(kind, s).Some? <==> exists g :: Matches(kind, s, g)
    ensures Match(kind, s).Some? ==> Matches(kind, s, Match(kind, s).value)
  {
    if g :| Matches(kind, s, g) {
      MatchIsTheMatch(kind, s, g);
    }
  }

  /** The text of well-formed groups determines them. */
  lemma TextInjective(kind: Kind, g: Groups, h: Groups)
    requires WellFormed(kind, g) && WellFormed(kind, h) && Text(g) == Text(h)
    ensures g == h
  {
    Unambiguous(kind, Text(g), g, h);
  }
}
