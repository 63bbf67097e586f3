/**
 * Text and its order. A Dafny string is a sequence of Unicode scalar values, that is, well-formed text; a program in
 * the source's language holds it as UTF-16 code units, and SQLite compares its UTF-8 bytes. All three orders agree.
 */
module TextOrder {
  import opened Options

  type Unit = u: nat | u < 0x1_0000

  /** UTF-16, section 2.1 of RFC 2781. */
  function Units(c: char): (us: seq<Unit>)
    ensures |us| > 0
  {
    var n := c as int;
    if n < 0x1_0000 then [n]
    else [0xD800 + (n - 0x1_0000) / 0x400, 0xDC00 + (n - 0x1_0000) % 0x400]
  }

  /** The units of a character give it back: itself, or ten bits from each of a high and a low surrogate. */
  lemma UnitsDecode(c: char, us: seq<Unit>)
    requires us == Units(c)
    ensures |us| == 1 ==> us[0] == c as int && !(0xD800 <= us[0] < 0xE000)
    ensures |us| != 1 ==>
              |us| == 2 && 0xD800 <= us[0] < 0xDC00 <= us[1] < 0xE000 &&
              c as int == 0x1_0000 + (us[0] as int - 0xD800) * 0x400 + (us[1] as int - 0xDC00)
  {
    var n := c as int - 0x1_0000;
    assert n >= 0 ==> n == n / 0x400 * 0x400 + n % 0x400;
  }

  function Utf16(s: string): seq<Unit> {
    if s == [] then [] else Units(s[0]) + Utf16(s[1..])
  }

  /** UTF-8, section 3 of RFC 3629. */
  function Bytes(c: char): (bs: seq<int>)
    ensures |bs| > 0
  {
    var n := c as int;
    if n < 0x80 then [n]
    else if n < 0x800 then [0xC0 + n / 64, 0x80 + n % 64]
    else if n < 0x1_0000 then [0xE0 + n / 4096, 0x80 + n / 64 % 64, 0x80 + n % 64]
    else [0xF0 + n / 262144, 0x80 + n / 4096 % 64, 0x80 + n / 64 % 64, 0x80 + n % 64]
  }

  function Utf8(s: string): seq<int> {
    if s == [] then [] else Bytes(s[0]) + Utf8(s[1..])
  }

  // ---- lexicographic order ----

  function Sign(a: int, b: int): int {
    if a < b then -1 else if a > b then 1 else 0
  }

  function Lex(a: seq<int>, b: seq<int>): int {
    if a == [] || b == [] then Sign(|a|, |b|)
    else if a[0] != b[0] then Sign(a[0], b[0])
    else Lex(a[1..], b[1..])
  }

  function CodePoints(s: string): seq<int> {
    if s == [] then [] else [s[0] as int] + CodePoints(s[1..])
  }

  lemma {:induction false} LexAntisymmetric(a: seq<int>, b: seq<int>)
    ensures Lex(a, b) == -Lex(b, a)
    ensures Lex(a, b) == 0 <==> a == b
  {
    if a != [] && b != [] && a[0] == b[0] {
      LexAntisymmetric(a[1..], b[1..]);
      assert a == [a[0]] + a[1..] && b == [b[0]] + b[1..];
    }
  }

  lemma {:induction false} LexTransitive(a: seq<int>, b: seq<int>, c: seq<int>)
    requires Lex(a, b) <= 0 && Lex(b, c) <= 0
    ensures Lex(a, c) <= 0
  {
    if a != [] && b != [] && c != [] && a[0] == b[0] && b[0] == c[0] {
      LexTransitive(a[1..], b[1..], c[1..]);
    }
  }

  lemma {:induction false} LexPrefix(p: seq<int>, a: seq<int>, b: seq<int>)
    ensures Lex(p + a, p + b) == Lex(a, b)
  {
    if p == [] {
      assert p + a == a && p + b == b;
    } else {
      assert (p + a)[1..] == p[1..] + a && (p + b)[1..] == p[1..] + b;
      LexPrefix(p[1..], a, b);
    }
  }

  /** `x` and `y` agree before `k` and there `x` is the smaller. */
  predicate SmallerAt(x: seq<int>, y: seq<int>, k: nat) {
    k < |x| && k < |y| && x[..k] == y[..k] && x[k] < y[k]
  }

  lemma LexSmallerAt(x: seq<int>, y: seq<int>, k: nat, a: seq<int>, b: seq<int>)
    requires SmallerAt(x, y, k)
    ensures Lex(x + a, y + b) == -1 && Lex(y + b, x + a) == 1
  {
    var p := x[..k];
    assert x + a == p + (x[k..] + a) && y + b == p + (y[k..] + b);
    LexPrefix(p, x[k..] + a, y[k..] + b);
    LexPrefix(p, y[k..] + b, x[k..] + a);
  }

  /** A code per character that keeps the order of the characters and in which none is the start of another. */
  ghost predicate OrderedCode(code: char -> seq<int>) {
    forall c: char, d: char :: (c as int) < (d as int) ==> Precedes(code(c), code(d))
  }

  ghost predicate Precedes(x: seq<int>, y: seq<int>) {
    exists k :: SmallerAt(x, y, k)
  }

  function Encode(code: char -> seq<int>, s: string): seq<int> {
    if s == [] then [] else code(s[0]) + Encode(code, s[1..])
  }

  /** Any such code turns code point order into the order of the encodings. */
  lemma {:induction false} EncodingKeepsOrder(code: char -> seq<int>, a: string, b: string)
    requires OrderedCode(code) && forall c :: |code(c)| > 0
    ensures Lex(Encode(code, a), Encode(code, b)) == Lex(CodePoints(a), CodePoints(b))
  {
    if a == [] || b == [] {
      assert a != [] ==> |CodePoints(a)| > 0 && |Encode(code, a)| > 0;
      assert b != [] ==> |CodePoints(b)| > 0 && |Encode(code, b)| > 0;
    } else if a[0] == b[0] {
      EncodingKeepsOrder(code, a[1..], b[1..]);
      LexPrefix(code(a[0]), Encode(code, a[1..]), Encode(code, b[1..]));
      LexPrefix([a[0] as int], CodePoints(a[1..]), CodePoints(b[1..]));
    } else if (a[0] as int) < (b[0] as int) {
      var k :| SmallerAt(code(a[0]), code(b[0]), k);
      LexSmallerAt(code(a[0]), code(b[0]), k, Encode(code, a[1..]), Encode(code, b[1..]));
    } else {
      var k :| SmallerAt(code(b[0]), code(a[0]), k);
      LexSmallerAt(code(b[0]), code(a[0]), k, Encode(code, b[1..]), Encode(code, a[1..]));
    }
  }

  // ---- the evaluator's comparison ----

  /** A surrogate encodes a code point above every other unit: lifts D800-DFFF over E000-FFFF. */
  function Lift(u: Unit): int {
    if u < 0xD800 then u else if u < 0xE000 then u + 0x2000 else u - 0x800
  }

  function Lifted(us: seq<Unit>): seq<int> {
    seq(|us|, i requires 0 <= i < |us| => Lift(us[i]))
  }

  /** The comparison of two texts by their code units. */
  method CompareText(a: seq<Unit>, b: seq<Unit>) returns (r: int)
    ensures r == Lex(Lifted(a), Lifted(b))
  {
    var n := Min(|a|, |b|);
    var i := 0;
    while i < n
      invariant 0 <= i <= n
      invariant Lex(Lifted(a), Lifted(b)) == Lex(Lifted(a)[i..], Lifted(b)[i..])
    {
      var x: int, y: int := a[i], b[i];
      if x != y {
        if x >= 0xD800 && y >= 0xD800 {
          x := x + if x < 0xE000 then 0x2000 else -0x800;
          y := y + if y < 0xE000 then 0x2000 else -0x800;
        }
        return if x < y then -1 else 1;
      }
      i := i + 1;
    }
    return if |a| < |b| then -1 else if |a| > |b| then 1 else 0;
  }

  /** On all unit sequences, well-formed or not, the comparison is a total order. */
  lemma CompareTotal(a: seq<Unit>, b: seq<Unit>, c: seq<Unit>)
    ensures Lex(Lifted(a), Lifted(b)) == -Lex(Lifted(b), Lifted(a))
    ensures Lex(Lifted(a), Lifted(b)) == 0 <==> a == b
    ensures Lex(Lifted(a), Lifted(b)) <= 0 && Lex(Lifted(b), Lifted(c)) <= 0 ==> Lex(Lifted(a), Lifted(c)) <= 0
  {
    LexAntisymmetric(Lifted(a), Lifted(b));
    if Lifted(a) == Lifted(b) {
      forall i | 0 <= i < |a| ensures |a| == |b| && a[i] == b[i] {
        assert |Lifted(a)| == |Lifted(b)| && Lifted(a)[i] == Lifted(b)[i];
      }
      assert |Lifted(a)| == |Lifted(b)|;
    }
    if Lex(Lifted(a), Lifted(b)) <= 0 && Lex(Lifted(b), Lifted(c)) <= 0 {
      LexTransitive(Lifted(a), Lifted(b), Lifted(c));
    }
  }

  function LiftedUnits(c: char): seq<int> {
    Lifted(Units(c))
  }

  lemma UnitsOrdered()
    ensures OrderedCode(LiftedUnits)
  {
    forall c: char, d: char | (c as int) < (d as int) ensures Precedes(LiftedUnits(c), LiftedUnits(d)) {
      var x, y := LiftedUnits(c), LiftedUnits(d);
      if x[0] < y[0] {
        assert SmallerAt(x, y, 0);
      } else {
        assert SmallerAt(x, y, 1);
      }
    }
  }

  lemma BytesOrdered()
    ensures OrderedCode(Bytes)
  {
    forall c: char, d: char | (c as int) < (d as int) ensures Precedes(Bytes(c), Bytes(d)) {
      BytesSmaller(c, d);
    }
  }

  lemma Base64(n: int, m: int)
    requires 0 <= n < m
    ensures n / 64 <= m / 64
    ensures n / 64 == m / 64 ==> n % 64 < m % 64
  {
  }

  lemma Sextets(n: nat)
    ensures n / 4096 == n / 64 / 64 && n / 262144 == n / 64 / 64 / 64
  {
  }

  lemma BytesSmaller(c: char, d: char)
    requires (c as int) < (d as int)
    ensures Precedes(Bytes(c), Bytes(d))
  {
    var n, m := c as int, d as int;
    var x, y := Bytes(c), Bytes(d);
    Sextets(n);
    Sextets(m);
    if |x| != |y| || n < 0x80 {
      LeadBytes(c, d);
      assert SmallerAt(x, y, 0);
    } else {
      Base64(n, m);
      if n / 64 == m / 64 {
        SameSextets(c, d);
        assert SmallerAt(x, y, |x| - 1);
      } else {
        Base64(n / 64, m / 64);
        if n / 4096 == m / 4096 {
          assert SmallerAt(x, y, |x| - 2);
        } else {
          Base64(n / 4096, m / 4096);
          if n / 262144 == m / 262144 {
            assert SmallerAt(x, y, |x| - 3);
          } else {
            assert SmallerAt(x, y, 0);
          }
        }
      }
    }
  }

  lemma SameSextets(c: char, d: char)
    requires |Bytes(c)| == |Bytes(d)| && (c as int) / 64 == (d as int) / 64
    ensures Bytes(c)[..|Bytes(c)| - 1] == Bytes(d)[..|Bytes(d)| - 1]
  {
    Sextets(c as int);
    Sextets(d as int);
  }

  /** A shorter code starts with a smaller byte. */
  lemma LeadBytes(c: char, d: char)
    requires (c as int) < (d as int) && (|Bytes(c)| != |Bytes(d)| || (c as int) < 0x80)
    ensures Bytes(c)[0] < Bytes(d)[0]
  {
  }

  lemma {:induction false} LiftedIsEncode(s: string)
    ensures Lifted(Utf16(s)) == Encode(LiftedUnits, s)
  {
    if s != [] {
      LiftedIsEncode(s[1..]);
      assert Lifted(Utf16(s)) == Lifted(Units(s[0])) + Lifted(Utf16(s[1..]));
    }
  }

  lemma {:induction false} Utf8IsEncode(s: string)
    ensures Utf8(s) == Encode(Bytes, s)
  {
    if s != [] {
      Utf8IsEncode(s[1..]);
    }
  }

  /** The order of two texts: by code point. */
  function Compare(a: string, b: string): int {
    Lex(CodePoints(a), CodePoints(b))
  }

  /** On well-formed text, the evaluator's order on code units is code point order, and so is SQLite's on bytes. */
  lemma OrdersAgree(a: string, b: string)
    ensures Lex(Lifted(Utf16(a)), Lifted(Utf16(b))) == Compare(a, b)
    ensures Lex(Utf8(a), Utf8(b)) == Compare(a, b)
  {
    UnitsOrdered();
    BytesOrdered();
    LiftedIsEncode(a);
    LiftedIsEncode(b);
    Utf8IsEncode(a);
    Utf8IsEncode(b);
    EncodingKeepsOrder(LiftedUnits, a, b);
    EncodingKeepsOrder(Bytes, a, b);
  }

  lemma {:induction false} CodePointsInjective(a: string, b: string)
    requires CodePoints(a) == CodePoints(b)
    ensures a == b
  {
    if a != [] {
      assert b != [];
      assert CodePoints(a)[0] == CodePoints(b)[0] && CodePoints(a)[1..] == CodePoints(b)[1..];
      CodePointsInjective(a[1..], b[1..]);
    }
  }

  lemma CompareIsTotal(a: string, b: string, c: string)
    ensures Compare(a, b) == -Compare(b, a)
    ensures Compare(a, b) == 0 <==> a == b
    ensures Compare(a, b) <= 0 && Compare(b, c) <= 0 ==> Compare(a, c) <= 0
  {
    LexAntisymmetric(CodePoints(a), CodePoints(b));
    if CodePoints(a) == CodePoints(b) {
      CodePointsInjective(a, b);
    }
    if Compare(a, b) <= 0 && Compare(b, c) <= 0 {
      LexTransitive(CodePoints(a), CodePoints(b), CodePoints(c));
    }
  }

  /** Well-formed texts with the same code units are the same. */
  lemma Utf16Injective(a: string, b: string)
    requires Utf16(a) == Utf16(b)
    ensures a == b
  {
    OrdersAgree(a, b);
    LexAntisymmetric(Lifted(Utf16(a)), Lifted(Utf16(b)));
    CompareIsTotal(a, b, a);
  }
}
