/** What a LIKE pattern means to the evaluator: how the text it matches can be cut, one piece per character. */
module PatternPieces {
  import opened TextOrder
  import opened Patterns

  function Concat(pieces: seq<seq<Unit>>): seq<Unit> {
    if pieces == [] then [] else pieces[0] + Concat(pieces[1..])
  }

  /** What a pattern's character stands for: `%` anything, `_` any one code unit, any other its own code units. */
  ghost predicate StandsFor(fold: CaseFold, ci: bool, c: char, piece: seq<Unit>) {
    if c == '%' then true
    else if c == '_' then |piece| == 1
    else
      && |piece| == |Units(c)|
      && forall i :: 0 <= i < |piece| ==>
           if ci then fold(piece[i]) == fold(Units(c)[i]) else piece[i] == Units(c)[i]
  }

  /** A text cut so that each character of the pattern stands for its piece. */
  ghost predicate Cuts(fold: CaseFold, ci: bool, pattern: string, pieces: seq<seq<Unit>>, us: seq<Unit>) {
    && |pieces| == |pattern|
    && Concat(pieces) == us
    && forall i :: 0 <= i < |pattern| ==> StandsFor(fold, ci, pattern[i], pieces[i])
  }

  lemma CutsOne(fold: CaseFold, ci: bool, pattern: string, piece: seq<Unit>, pieces: seq<seq<Unit>>, us: seq<Unit>)
    requires pattern != [] && StandsFor(fold, ci, pattern[0], piece) && Cuts(fold, ci, pattern[1..], pieces, us)
    ensures Cuts(fold, ci, pattern, [piece] + pieces, piece + us)
  {
    assert ([piece] + pieces)[1..] == pieces;
    forall i | 0 <= i < |pattern| ensures StandsFor(fold, ci, pattern[i], ([piece] + pieces)[i]) {
      if i > 0 {
        assert StandsFor(fold, ci, pattern[1..][i - 1], pieces[i - 1]);
      }
    }
  }

  lemma CutsRest(fold: CaseFold, ci: bool, pattern: string, pieces: seq<seq<Unit>>, us: seq<Unit>)
    requires pattern != [] && Cuts(fold, ci, pattern, pieces, us)
    ensures us == pieces[0] + Concat(pieces[1..])
    ensures StandsFor(fold, ci, pattern[0], pieces[0])
    ensures Cuts(fold, ci, pattern[1..], pieces[1..], Concat(pieces[1..]))
  {
    forall i | 0 <= i < |pattern[1..]| ensures StandsFor(fold, ci, pattern[1..][i], pieces[1..][i]) {
      assert StandsFor(fold, ci, pattern[i + 1], pieces[i + 1]);
    }
  }

  lemma {:induction false} MatchCuts(fold: CaseFold, ci: bool, pattern: string, us: seq<Unit>)
      returns (pieces: seq<seq<Unit>>)
    requires Match(fold, ci, Tokens(pattern), us)
    ensures Cuts(fold, ci, pattern, pieces, us)
    decreases |pattern| + |us|
  {
    if pattern == [] {
      pieces := [];
    } else if pattern[0] == '%' {
      assert Tokens(pattern)[1..] == Tokens(pattern[1..]);
      if Match(fold, ci, Tokens(pattern[1..]), us) {
        var rest := MatchCuts(fold, ci, pattern[1..], us);
        pieces := [[]] + rest;
        CutsOne(fold, ci, pattern, [], rest, us);
        assert [] + us == us;
      } else {
        var more := MatchCuts(fold, ci, pattern, us[1..]);
        CutsRest(fold, ci, pattern, more, us[1..]);
        var first := [us[0]] + more[0];
        pieces := [first] + more[1..];
        CutsOne(fold, ci, pattern, first, more[1..], Concat(more[1..]));
        assert us == [us[0]] + us[1..] == first + Concat(more[1..]);
      }
    } else {
      var n := if pattern[0] == '_' then 1 else |Units(pattern[0])|;
      MatchOne(fold, ci, pattern, us, n);
      var rest := MatchCuts(fold, ci, pattern[1..], us[n..]);
      pieces := [us[..n]] + rest;
      CutsOne(fold, ci, pattern, us[..n], rest, us[n..]);
      assert us == us[..n] + us[n..];
    }
  }

  /** A character that is no `%` stands for the first code units of what the pattern matches, as many as it has. */
  lemma MatchOne(fold: CaseFold, ci: bool, pattern: string, us: seq<Unit>, n: nat)
    requires pattern != [] && pattern[0] != '%' && n == if pattern[0] == '_' then 1 else |Units(pattern[0])|
    ensures Match(fold, ci, Tokens(pattern), us) <==>
            |us| >= n && StandsFor(fold, ci, pattern[0], us[..n]) && Match(fold, ci, Tokens(pattern[1..]), us[n..])
  {
    if pattern[0] == '_' {
      assert Tokens(pattern)[1..] == Tokens(pattern[1..]);
    } else {
      MatchChar(fold, ci, pattern[0], Tokens(pattern[1..]), us);
    }
  }

  lemma {:induction false} CutsMatch(fold: CaseFold, ci: bool, pattern: string, pieces: seq<seq<Unit>>, us: seq<Unit>)
    requires Cuts(fold, ci, pattern, pieces, us)
    ensures Match(fold, ci, Tokens(pattern), us)
  {
    if pattern != [] {
      var left := Concat(pieces[1..]);
      CutsRest(fold, ci, pattern, pieces, us);
      CutsMatch(fold, ci, pattern[1..], pieces[1..], left);
      if pattern[0] == '%' {
        assert Tokens(pattern)[1..] == Tokens(pattern[1..]);
        AnySeqSkips(fold, ci, Tokens(pattern), pieces[0], left);
      } else {
        assert us[..|pieces[0]|] == pieces[0] && us[|pieces[0]|..] == left;
        MatchOne(fold, ci, pattern, us, |pieces[0]|);
      }
    }
  }

  /** The evaluator's LIKE matches exactly the texts that can be cut into what the pattern's characters stand for. */
  lemma LikesIff(fold: CaseFold, ci: bool, pattern: string, s: string)
    ensures Likes(fold, ci, pattern, s) <==>
            exists pieces: seq<seq<Unit>> :: Cuts(fold, ci, pattern, pieces, Utf16(s))
  {
    if Likes(fold, ci, pattern, s) {
      var pieces := MatchCuts(fold, ci, pattern, Utf16(s));
      assert exists more: seq<seq<Unit>> :: Cuts(fold, ci, pattern, more, Utf16(s));
    } else if pieces: seq<seq<Unit>> :| Cuts(fold, ci, pattern, pieces, Utf16(s)) {
      CutsMatch(fold, ci, pattern, pieces, Utf16(s));
    }
  }
}
