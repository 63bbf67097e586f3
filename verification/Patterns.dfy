/**
 * LIKE patterns: what the evaluator's regular expression matches, on UTF-16 code units, and what SQLite's GLOB and
 * LIKE match, on code points, of the pattern translated for them.
 */
module Patterns {
  import opened TextOrder

  // ---- the evaluator ----

  datatype Token = AnySeq | AnyOne | Lit(u: Unit)

  predicate IsSurrogate(u: Unit) {
    0xD800 <= u < 0xE000
  }

  function AsciiUpper(u: Unit): Unit {
    if 'a' as int <= u <= 'z' as int then u - 32 else u
  }

  /**
   * What the case-insensitive comparison of a regular expression without the `u` flag guarantees of a code unit
   * (Canonicalize, section 22.2.2.7.3 of ECMA-262): ASCII folds to upper case, nothing else folds into ASCII, and a
   * surrogate folds to itself alone.
   */
  ghost predicate IsFold(f: Unit -> Unit) {
    && (forall u: Unit :: u < 0x80 ==> f(u) == AsciiUpper(u))
    && (forall u: Unit :: u >= 0x80 ==> f(u) >= 0x80)
    && (forall u: Unit :: if IsSurrogate(u) then f(u) == u else !IsSurrogate(f(u)))
  }

  type CaseFold = f: Unit -> Unit | IsFold(f) witness AsciiUpper

  function Literals(us: seq<Unit>): seq<Token> {
    seq(|us|, i requires 0 <= i < |us| => Lit(us[i]))
  }

  function TokensOf(c: char): seq<Token> {
    if c == '%' then [AnySeq] else if c == '_' then [AnyOne] else Literals(Units(c))
  }

  /** The regular expression of a pattern: `.*`, `.` and the code units of every other character. */
  function Tokens(pattern: string): seq<Token> {
    if pattern == [] then [] else TokensOf(pattern[0]) + Tokens(pattern[1..])
  }

  predicate UnitEq(fold: CaseFold, ci: bool, a: Unit, b: Unit) {
    if ci then fold(a) == fold(b) else a == b
  }

  predicate Match(fold: CaseFold, ci: bool, toks: seq<Token>, us: seq<Unit>)
    decreases |toks| + |us|
  {
    if toks == [] then us == []
    else match toks[0]
      case AnySeq => Match(fold, ci, toks[1..], us) || (us != [] && Match(fold, ci, toks, us[1..]))
      case AnyOne => us != [] && Match(fold, ci, toks[1..], us[1..])
      case Lit(u) => us != [] && UnitEq(fold, ci, u, us[0]) && Match(fold, ci, toks[1..], us[1..])
  }

  /** Whether the evaluator's LIKE matches `s`. */
  predicate Likes(fold: CaseFold, ci: bool, pattern: string, s: string) {
    Match(fold, ci, Tokens(pattern), Utf16(s))
  }

  // ---- SQLite ----

  datatype ClassEnd = NoEnd | End(seen: bool, rest: string)

  /** The rest of a GLOB character class, up to its closing bracket. */
  function ClassTail(p: string, c: char, prior: string, seen: bool): (r: ClassEnd)
    ensures r.End? ==> |r.rest| < |p|
    decreases |p|
  {
    if p == [] then NoEnd
    else if p[0] == ']' then End(seen, p[1..])
    else if p[0] == '-' && |p| > 1 && p[1] != ']' && prior != [] then
      ClassTail(p[2..], c, [], seen || prior[0] <= c <= p[1])
    else ClassTail(p[1..], c, [p[0]], seen || c == p[0])
  }

  /** Whether `c` is in the GLOB class that starts after `[`, and what follows the class. */
  function Class(p: string, c: char): (r: ClassEnd)
    ensures r.End? ==> |r.rest| < |p|
  {
    var invert := p != [] && p[0] == '^';
    var q := if invert then p[1..] else p;
    var bracket := q != [] && q[0] == ']';
    var r := ClassTail(if bracket then q[1..] else q, c, [], bracket && c == ']');
    if r.End? then End(r.seen != invert, r.rest) else NoEnd
  }

  predicate Glob(p: string, s: string)
    decreases |p| + |s|
  {
    if p == [] then s == []
    else if p[0] == '*' then Glob(p[1..], s) || (s != [] && Glob(p, s[1..]))
    else if s == [] then false
    else if p[0] == '?' then Glob(p[1..], s[1..])
    else if p[0] == '[' then
      var r := Class(p[1..], s[0]);
      r.End? && r.seen && Glob(r.rest, s[1..])
    else p[0] == s[0] && Glob(p[1..], s[1..])
  }

  function AsciiLower(c: char): char {
    if 'A' <= c <= 'Z' then (c as int + 32) as char else c
  }

  predicate SqlLike(p: string, s: string)
    decreases |p| + |s|
  {
    if p == [] then s == []
    else if p[0] == '%' then SqlLike(p[1..], s) || (s != [] && SqlLike(p, s[1..]))
    else if s == [] then false
    else if p[0] == '_' then SqlLike(p[1..], s[1..])
    else AsciiLower(p[0]) == AsciiLower(s[0]) && SqlLike(p[1..], s[1..])
  }

  predicate SqlMatches(ci: bool, p: string, s: string) {
    if ci then SqlLike(p, s) else Glob(p, s)
  }

  // ---- the translation ----

  /** A character of the basic plane that is not ASCII: one code unit above 0x7F. */
  predicate BeyondAscii(c: char) {
    0x7F < c as int < 0x1_0000
  }

  function TranslateChar(c: char, ci: bool): string {
    if c == '%' || c == '_' then (if ci then "%" else "*")
    else if ci && BeyondAscii(c) then "_"
    else if !ci && (c == '*' || c == '?' || c == '[') then ['[', c, ']']
    else [c]
  }

  function Translate(pattern: string, ci: bool): string {
    if pattern == [] then [] else TranslateChar(pattern[0], ci) + Translate(pattern[1..], ci)
  }

  predicate TranslatesExactly(pattern: string, ci: bool) {
    forall c :: c in pattern ==> c != '_' && !(ci && BeyondAscii(c))
  }

  lemma {:induction false} TranslateConcat(a: string, b: string, ci: bool)
    ensures Translate(a + b, ci) == Translate(a, ci) + Translate(b, ci)
  {
    if a == [] {
      assert a + b == b;
    } else {
      assert (a + b)[1..] == a[1..] + b;
      TranslateConcat(a[1..], b, ci);
    }
  }

  lemma ExactOneMore(p: string, c: char, ci: bool)
    ensures TranslatesExactly(p + [c], ci) <==> TranslatesExactly(p, ci) && c != '_' && !(ci && BeyondAscii(c))
    ensures Translate([c], ci) == TranslateChar(c, ci)
  {
    if TranslatesExactly(p + [c], ci) {
      assert c in p + [c];
      forall d | d in p ensures d != '_' && !(ci && BeyondAscii(d)) {
        assert d in p + [c];
      }
    }
  }

  /** A `like` pattern as GLOB and an `ilike` one as LIKE, and whether the translation is exact. */
  method LikeSql(pattern: string, ci: bool) returns (out: string, exact: bool)
    ensures out == Translate(pattern, ci) && exact == TranslatesExactly(pattern, ci)
  {
    out, exact := "", true;
    var i := 0;
    while i < |pattern|
      invariant 0 <= i <= |pattern|
      invariant out == Translate(pattern[..i], ci)
      invariant exact == TranslatesExactly(pattern[..i], ci)
    {
      var ch := pattern[i];
      assert pattern[..i + 1] == pattern[..i] + [ch];
      TranslateConcat(pattern[..i], [ch], ci);
      ExactOneMore(pattern[..i], ch, ci);
      if ch == '%' {
        out := out + if ci then "%" else "*";
      } else if ch == '_' {
        out, exact := out + (if ci then "%" else "*"), false;
      } else if ci && |Units(ch)| == 1 && Units(ch)[0] > 0x7F {
        out, exact := out + "_", false;
      } else if !ci && (ch == '*' || ch == '?' || ch == '[') {
        out := out + "[" + [ch] + "]";
      } else {
        out := out + [ch];
      }
      i := i + 1;
    }
    assert pattern[..i] == pattern;
  }

  // ---- a superset always ----

  /** A pattern with every `_` widened to `%`. */
  function Widen(pattern: string): string {
    seq(|pattern|, i requires 0 <= i < |pattern| => if pattern[i] == '_' then '%' else pattern[i])
  }

  lemma {:induction false} WidenTranslates(pattern: string, ci: bool)
    ensures Translate(Widen(pattern), ci) == Translate(pattern, ci)
  {
    if pattern != [] {
      assert Widen(pattern)[1..] == Widen(pattern[1..]);
      WidenTranslates(pattern[1..], ci);
    }
  }

  function WidenTokens(toks: seq<Token>): seq<Token> {
    seq(|toks|, i requires 0 <= i < |toks| => if toks[i].AnyOne? then AnySeq else toks[i])
  }

  lemma {:induction false} WidenMatches(fold: CaseFold, ci: bool, toks: seq<Token>, us: seq<Unit>)
    requires Match(fold, ci, toks, us)
    ensures Match(fold, ci, WidenTokens(toks), us)
    decreases |toks| + |us|
  {
    if toks != [] {
      var rest := toks[1..];
      assert WidenTokens(toks)[1..] == WidenTokens(rest);
      match toks[0]
      case AnySeq =>
        if Match(fold, ci, rest, us) {
          WidenMatches(fold, ci, rest, us);
        } else {
          WidenMatches(fold, ci, toks, us[1..]);
        }
      case AnyOne =>
        WidenMatches(fold, ci, rest, us[1..]);
        assert Match(fold, ci, WidenTokens(toks), us[1..]);
      case Lit(u) =>
        WidenMatches(fold, ci, rest, us[1..]);
    }
  }

  lemma WidenTokensConcat(a: seq<Token>, b: seq<Token>)
    ensures WidenTokens(a + b) == WidenTokens(a) + WidenTokens(b)
  {
  }

  lemma {:induction false} WidenTokensOf(pattern: string)
    ensures WidenTokens(Tokens(pattern)) == Tokens(Widen(pattern))
  {
    if pattern != [] {
      WidenTokensOf(pattern[1..]);
      assert Widen(pattern)[1..] == Widen(pattern[1..]);
      WidenTokensConcat(TokensOf(pattern[0]), Tokens(pattern[1..]));
      assert WidenTokens(TokensOf(pattern[0])) == TokensOf(Widen(pattern)[0]);
    }
  }

  lemma MatchLit(fold: CaseFold, ci: bool, u: Unit, toks: seq<Token>, us: seq<Unit>)
    ensures Match(fold, ci, [Lit(u)] + toks, us)
            <==> us != [] && UnitEq(fold, ci, u, us[0]) && Match(fold, ci, toks, us[1..])
  {
    assert ([Lit(u)] + toks)[1..] == toks;
  }

  /** A literal character matches exactly the code units that equal its own. */
  lemma MatchChar(fold: CaseFold, ci: bool, c: char, toks: seq<Token>, us: seq<Unit>)
    ensures Match(fold, ci, Literals(Units(c)) + toks, us) <==>
            |us| >= |Units(c)| && (forall i :: 0 <= i < |Units(c)| ==> UnitEq(fold, ci, Units(c)[i], us[i])) &&
            Match(fold, ci, toks, us[|Units(c)|..])
  {
    var u := Units(c);
    MatchLit(fold, ci, u[0], Literals(u)[1..] + toks, us);
    assert Literals(u) + toks == [Lit(u[0])] + (Literals(u)[1..] + toks);
    if |u| == 2 {
      if us != [] {
        MatchLit(fold, ci, u[1], toks, us[1..]);
        assert Literals(u)[1..] + toks == [Lit(u[1])] + toks;
        assert |us| > 1 ==> us[1..][1..] == us[2..];
      }
    } else {
      assert Literals(u)[1..] + toks == toks;
    }
  }

  lemma NotStartedBy(fold: CaseFold, ci: bool, c: char, low: Unit)
    requires 0xDC00 <= low < 0xE000
    ensures !UnitEq(fold, ci, Units(c)[0], low)
  {
  }

  /** A leading low surrogate, the second half of a character, is no start of a match a `_`-free pattern needs. */
  lemma {:induction false} SkipLow(fold: CaseFold, ci: bool, p: string, low: Unit, us: seq<Unit>)
    requires '_' !in p && 0xDC00 <= low < 0xE000
    requires Match(fold, ci, Tokens(p), [low] + us)
    ensures Match(fold, ci, Tokens(p), us)
  {
    assert p != [];
    assert ([low] + us)[1..] == us;
    assert Tokens(p) == TokensOf(p[0]) + Tokens(p[1..]);
    if p[0] == '%' {
      assert Tokens(p)[1..] == Tokens(p[1..]);
      if Match(fold, ci, Tokens(p[1..]), [low] + us) {
        SkipLow(fold, ci, p[1..], low, us);
      }
    } else {
      NotStartedBy(fold, ci, p[0], low);
      MatchChar(fold, ci, p[0], Tokens(p[1..]), [low] + us);
    }
  }

  lemma Utf16Tail(s: string)
    requires s != []
    ensures Utf16(s)[|Units(s[0])|..] == Utf16(s[1..])
    ensures |Utf16(s)| >= |Units(s[0])|
    ensures forall i :: 0 <= i < |Units(s[0])| ==> Utf16(s)[i] == Units(s[0])[i]
  {
  }

  /** The first character of a text whose first code units equal those of `c`. */
  lemma FirstChar(fold: CaseFold, ci: bool, c: char, s: string)
    requires |Utf16(s)| >= |Units(c)|
    requires forall i :: 0 <= i < |Units(c)| ==> UnitEq(fold, ci, Units(c)[i], Utf16(s)[i])
    ensures s != [] && |Units(s[0])| == |Units(c)|
    ensures if !ci || c as int >= 0x1_0000 then s[0] == c else !BeyondAscii(c) ==> AsciiLower(s[0]) == AsciiLower(c)
  {
    Utf16Tail(s);
    assert UnitEq(fold, ci, Units(c)[0], Utf16(s)[0]);
    if |Units(c)| == 2 {
      assert UnitEq(fold, ci, Units(c)[1], Utf16(s)[1]);
    }
  }

  lemma GlobBracketed(x: char, p: string, s: string)
    requires x == '*' || x == '?' || x == '['
    ensures Glob(['[', x, ']'] + p, s) <==> s != [] && s[0] == x && Glob(p, s[1..])
  {
    var q := ['[', x, ']'] + p;
    assert q[1..][1..] == [']'] + p && q[1..][1..][1..] == p;
    if s != [] {
      var inside := q[1..];
      assert ClassTail(inside[1..], s[0], [x], s[0] == x) == End(s[0] == x, p);
      assert ClassTail(inside, s[0], [], false) == ClassTail(inside[1..], s[0], [x], s[0] == x);
      assert Class(inside, s[0]) == End(s[0] == x, p);
    }
  }

  /** The translation of a literal character matches one character, exactly unless it is one LIKE cannot fold. */
  lemma SqlChar(ci: bool, c: char, p: string, s: string)
    requires c != '%' && c != '_'
    ensures SqlMatches(ci, TranslateChar(c, ci) + p, s) <==>
            s != [] && SqlMatches(ci, p, s[1..]) &&
            (if !ci then s[0] == c else BeyondAscii(c) || AsciiLower(s[0]) == AsciiLower(c))
  {
    var t := TranslateChar(c, ci);
    if !ci && (c == '*' || c == '?' || c == '[') {
      GlobBracketed(c, p, s);
    } else {
      assert (t + p)[1..] == p;
    }
  }

  lemma SqlAny(ci: bool, p: string, s: string)
    ensures var t := TranslateChar('%', ci);
            SqlMatches(ci, t + p, s) <==> SqlMatches(ci, p, s) || (s != [] && SqlMatches(ci, t + p, s[1..]))
  {
    assert (TranslateChar('%', ci) + p)[1..] == p;
  }

  lemma {:induction false} NarrowedSuperset(fold: CaseFold, ci: bool, p: string, s: string)
    requires '_' !in p && Likes(fold, ci, p, s)
    ensures SqlMatches(ci, Translate(p, ci), s)
    decreases |p| + |s|
  {
    if p == [] {
      assert s == [] by {
        if s != [] {
          Utf16Tail(s);
        }
      }
    } else if p[0] == '%' {
      SqlAny(ci, Translate(p[1..], ci), s);
      assert Tokens(p)[1..] == Tokens(p[1..]);
      if Likes(fold, ci, p[1..], s) {
        NarrowedSuperset(fold, ci, p[1..], s);
      } else {
        assert s != [];
        Utf16Tail(s);
        if |Units(s[0])| == 2 {
          assert Utf16(s)[1..] == [Units(s[0])[1]] + Utf16(s[1..]);
          SkipLow(fold, ci, p, Units(s[0])[1], Utf16(s[1..]));
        }
        NarrowedSuperset(fold, ci, p, s[1..]);
      }
    } else {
      MatchChar(fold, ci, p[0], Tokens(p[1..]), Utf16(s));
      FirstChar(fold, ci, p[0], s);
      Utf16Tail(s);
      NarrowedSuperset(fold, ci, p[1..], s[1..]);
      SqlChar(ci, p[0], Translate(p[1..], ci), s);
    }
  }

  /** Whatever the evaluator's LIKE matches, SQLite matches too. */
  lemma LikeSuperset(fold: CaseFold, ci: bool, p: string, s: string)
    requires Likes(fold, ci, p, s)
    ensures SqlMatches(ci, Translate(p, ci), s)
  {
    WidenMatches(fold, ci, Tokens(p), Utf16(s));
    WidenTokensOf(p);
    WidenTranslates(p, ci);
    NarrowedSuperset(fold, ci, Widen(p), s);
  }

  // ---- and no more than that when exact ----

  lemma {:induction false} AnySeqSkips(fold: CaseFold, ci: bool, toks: seq<Token>, skipped: seq<Unit>, us: seq<Unit>)
    requires toks != [] && toks[0] == AnySeq && Match(fold, ci, toks, us)
    ensures Match(fold, ci, toks, skipped + us)
  {
    if skipped == [] {
      assert skipped + us == us;
    } else {
      AnySeqSkips(fold, ci, toks, skipped[1..], us);
      assert (skipped + us)[1..] == skipped[1..] + us;
    }
  }

  /** A character equal to `c`, or an ASCII case variant of it, matches the code units of `c`. */
  lemma SameChar(fold: CaseFold, ci: bool, c: char, d: char)
    requires if !ci then d == c else !BeyondAscii(c) && AsciiLower(d) == AsciiLower(c)
    ensures |Units(c)| == |Units(d)| && forall i :: 0 <= i < |Units(c)| ==> UnitEq(fold, ci, Units(c)[i], Units(d)[i])
  {
  }

  lemma {:induction false} ExactSubset(fold: CaseFold, ci: bool, p: string, s: string)
    requires TranslatesExactly(p, ci) && SqlMatches(ci, Translate(p, ci), s)
    ensures Likes(fold, ci, p, s)
    decreases |p| + |s|
  {
    if p != [] {
      assert p[0] in p && forall c :: c in p[1..] ==> c in p;
      if p[0] == '%' {
        assert Tokens(p)[1..] == Tokens(p[1..]);
        SqlAny(ci, Translate(p[1..], ci), s);
        if SqlMatches(ci, Translate(p[1..], ci), s) {
          ExactSubset(fold, ci, p[1..], s);
        } else {
          ExactSubset(fold, ci, p, s[1..]);
          AnySeqSkips(fold, ci, Tokens(p), Units(s[0]), Utf16(s[1..]));
        }
      } else {
        SqlChar(ci, p[0], Translate(p[1..], ci), s);
        ExactSubset(fold, ci, p[1..], s[1..]);
        SameChar(fold, ci, p[0], s[0]);
        Utf16Tail(s);
        MatchChar(fold, ci, p[0], Tokens(p[1..]), Utf16(s));
      }
    }
  }

  /** An exact translation matches exactly what the evaluator's LIKE matches. */
  lemma LikeExact(fold: CaseFold, ci: bool, p: string, s: string)
    requires TranslatesExactly(p, ci)
    ensures SqlMatches(ci, Translate(p, ci), s) <==> Likes(fold, ci, p, s)
  {
    if Likes(fold, ci, p, s) {
      LikeSuperset(fold, ci, p, s);
    } else if SqlMatches(ci, Translate(p, ci), s) {
      ExactSubset(fold, ci, p, s);
    }
  }

  // ---- and always more when not ----

  /** The shortest text the translation matches, with a plain letter wherever LIKE takes any character. */
  function Shortest(p: string, ci: bool): string {
    if p == [] then []
    else
      var first := if p[0] == '%' || p[0] == '_' then [] else if ci && BeyondAscii(p[0]) then "a" else [p[0]];
      first + Shortest(p[1..], ci)
  }

  lemma ShortestStep(p: string, ci: bool)
    requires p != []
    ensures if p[0] == '%' || p[0] == '_' then Shortest(p, ci) == Shortest(p[1..], ci)
            else Shortest(p, ci) == [if ci && BeyondAscii(p[0]) then 'a' else p[0]] + Shortest(p[1..], ci) &&
                 Shortest(p, ci)[1..] == Shortest(p[1..], ci)
  {
  }

  lemma {:induction false} ShortestMatches(p: string, ci: bool)
    ensures SqlMatches(ci, Translate(p, ci), Shortest(p, ci))
  {
    if p != [] {
      ShortestMatches(p[1..], ci);
      ShortestStep(p, ci);
      if p[0] == '%' || p[0] == '_' {
        SqlAny(ci, Translate(p[1..], ci), Shortest(p[1..], ci));
      } else {
        SqlChar(ci, p[0], Translate(p[1..], ci), Shortest(p, ci));
      }
    }
  }

  /** The fewest code units a regular expression can match. */
  function MinUnits(toks: seq<Token>): nat {
    if toks == [] then 0 else (if toks[0].AnySeq? then 0 else 1) + MinUnits(toks[1..])
  }

  lemma {:induction false} MatchNeedsUnits(fold: CaseFold, ci: bool, toks: seq<Token>, us: seq<Unit>)
    requires Match(fold, ci, toks, us)
    ensures |us| >= MinUnits(toks)
    decreases |toks| + |us|
  {
    if toks != [] {
      if toks[0].AnySeq? && !Match(fold, ci, toks[1..], us) {
        MatchNeedsUnits(fold, ci, toks, us[1..]);
      } else {
        MatchNeedsUnits(fold, ci, toks[1..], if toks[0].AnySeq? then us else us[1..]);
      }
    }
  }

  lemma MinUnitsOf(c: char, toks: seq<Token>)
    ensures MinUnits(TokensOf(c) + toks) ==
              (if c == '%' then 0 else if c == '_' then 1 else |Units(c)|) + MinUnits(toks)
  {
    var t := TokensOf(c);
    assert (t + toks)[1..] == t[1..] + toks;
    if |t| == 2 {
      assert (t[1..] + toks)[1..] == toks;
      assert MinUnits(t[1..] + toks) == 1 + MinUnits(toks);
    } else {
      assert t[1..] + toks == toks;
    }
  }

  function Underscores(p: string): nat {
    if p == [] then 0 else (if p[0] == '_' then 1 else 0) + Underscores(p[1..])
  }

  lemma {:induction false} ShortestUnits(p: string, ci: bool)
    ensures |Utf16(Shortest(p, ci))| + Underscores(p) == MinUnits(Tokens(p))
    ensures '_' in p ==> Underscores(p) > 0
  {
    if p != [] {
      ShortestUnits(p[1..], ci);
      MinUnitsOf(p[0], Tokens(p[1..]));
      ShortestStep(p, ci);
    }
  }

  /** A `_`-free pattern that matches its own shortest text has no character LIKE cannot fold. */
  lemma {:induction false} ShortestAligned(fold: CaseFold, p: string)
    requires '_' !in p && Likes(fold, true, p, Shortest(p, true))
    ensures forall c :: c in p ==> !BeyondAscii(c)
  {
    if p != [] {
      var s := Shortest(p, true);
      ShortestStep(p, true);
      assert p[0] in p && forall c :: c in p ==> c == p[0] || c in p[1..];
      if p[0] == '%' {
        assert Tokens(p)[1..] == Tokens(p[1..]);
        if !Match(fold, true, Tokens(p[1..]), Utf16(s)) {
          MatchNeedsUnits(fold, true, Tokens(p), Utf16(s)[1..]);
          ShortestUnits(p, true);
          NoUnderscores(p);
        }
      } else {
        MatchChar(fold, true, p[0], Tokens(p[1..]), Utf16(s));
        Utf16Tail(s);
        assert UnitEq(fold, true, Units(p[0])[0], Utf16(s)[0]);
      }
      ShortestAligned(fold, p[1..]);
    }
  }

  lemma {:induction false} NoUnderscores(p: string)
    requires '_' !in p
    ensures Underscores(p) == 0
  {
    if p != [] {
      NoUnderscores(p[1..]);
    }
  }

  /** The `exact` flag is tight: a translation matches the evaluator's LIKE on every text if and only if it says so. */
  lemma ExactIff(fold: CaseFold, p: string, ci: bool)
    ensures TranslatesExactly(p, ci) <==> forall s :: SqlMatches(ci, Translate(p, ci), s) <==> Likes(fold, ci, p, s)
  {
    if TranslatesExactly(p, ci) {
      forall s ensures SqlMatches(ci, Translate(p, ci), s) <==> Likes(fold, ci, p, s) {
        LikeExact(fold, ci, p, s);
      }
    } else {
      var s := Shortest(p, ci);
      ShortestMatches(p, ci);
      if Likes(fold, ci, p, s) {
        MatchNeedsUnits(fold, ci, Tokens(p), Utf16(s));
        ShortestUnits(p, ci);
        assert '_' !in p;
        ShortestAligned(fold, p);
      }
      assert SqlMatches(ci, Translate(p, ci), s) && !Likes(fold, ci, p, s);
    }
  }
}
