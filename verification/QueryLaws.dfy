/**
 * What the small parts of the query language mean, said apart from how they are computed: paths into arrays, the place
 * a value sorts to, which sort key decides, and how grouped counts are listed.
 */
module QueryLaws {
  import opened Options
  import opened TextOrder
  import opened Sorting
  import opened Query

  // ---- paths ----

  lemma SplitFirst(head: string, tail: string)
    requires '.' !in head
    ensures SplitOn(head + "." + tail, '.') == [head] + SplitOn(tail, '.')
  {
    var s := head + "." + tail;
    assert s[..|head|] == head && s[|head| + 1..] == tail;
    FirstAt(s, '.', |head|);
  }

  lemma Regroup<T>(a: seq<T>, b: seq<T>, c: seq<T>)
    ensures a + (b + c) == a + b + c
  {
  }

  lemma CutAt(path: string, at: nat, seg: string)
    requires at < |path| && path[at] == '.'
    ensures path == path[..at] + "." + path[at + 1..]
    ensures path + "." + seg == path[..at] + "." + (path[at + 1..] + "." + seg)
  {
  }

  lemma SplitMore(head: string, tail: string, seg: string, path: string, whole: string)
    requires '.' !in head && path == head + "." + tail && whole == head + "." + (tail + "." + seg)
    requires SplitOn(tail + "." + seg, '.') == SplitOn(tail, '.') + [seg]
    ensures SplitOn(whole, '.') == SplitOn(path, '.') + [seg]
  {
    SplitFirst(head, tail);
    SplitFirst(head, tail + "." + seg);
    Regroup([head], SplitOn(tail, '.'), [seg]);
  }

  lemma {:induction false} SplitStep(path: string, seg: string)
    requires '.' !in seg
    ensures SplitOn(path + "." + seg, '.') == SplitOn(path, '.') + [seg]
    decreases |path|
  {
    var at := IndexOf(path, '.');
    if at < |path| {
      SplitStep(path[at + 1..], seg);
      CutAt(path, at, seg);
      SplitMore(path[..at], path[at + 1..], seg, path, path + "." + seg);
    } else {
      UndottedIsWhole(seg);
      assert path[..at] == path;
      SplitFirst(path, seg);
    }
  }

  lemma {:induction false} WalkStep(v: Field, segs: seq<string>, seg: string)
    ensures Walk(v, segs + [seg]) == if Walk(v, segs).None? then None else Property(Walk(v, segs).value, seg)
    decreases |segs|
  {
    if segs == [] {
      assert segs + [seg] == [seg] && [seg][1..] == [];
    } else if v.None? {
      WalkNothing(segs);
    } else {
      assert (segs + [seg])[1..] == segs[1..] + [seg];
      WalkStep(Property(v.value, segs[0]), segs[1..], seg);
    }
  }

  /** A path is read one segment after another. */
  lemma PathStep(row: Json, path: string, seg: string)
    requires '.' !in seg
    ensures FieldOf(row, path + "." + seg) ==
            if FieldOf(row, path).None? then None else Property(FieldOf(row, path).value, seg)
  {
    SplitStep(path, seg);
    WalkStep(Some(row), Split(path), seg);
  }

  /** A number as JavaScript writes it. */
  function Decimal(n: nat): (s: string)
    ensures s != [] && '0' <= s[0] <= '9' && (n > 0 ==> s[0] != '0')
  {
    if n < 10 then [('0' as int + n) as char] else Decimal(n / 10) + [('0' as int + n % 10) as char]
  }

  lemma {:induction false} DigitsOfDecimal(n: nat)
    ensures Digits(Decimal(n)) == Some(n) && (n >= 10 ==> |Decimal(n)| > 1)
  {
    if n < 10 {
      assert Decimal(n)[..0] == [];
    } else {
      DigitsOfDecimal(n / 10);
      assert Decimal(n)[..|Decimal(n)| - 1] == Decimal(n / 10);
    }
  }

  lemma {:induction false} DecimalOfDigits(s: string, n: nat)
    requires s != [] && (s[0] == '0' ==> |s| == 1) && Digits(s) == Some(n)
    ensures s == Decimal(n)
  {
    var init, c := s[..|s| - 1], s[|s| - 1];
    assert s == init + [c];
    if init == [] {
      assert Digits(init) == Some(0);
    } else {
      var m := Digits(init).value;
      assert init[0] == s[0];
      DecimalOfDigits(init, m);
      assert Decimal(0) == ['0'];
      assert m > 0;
      assert n / 10 == m && n % 10 == c as int - '0' as int;
    }
  }

  /** A segment is an array index exactly when it is a number's decimal writing. */
  lemma ArrayIndexIff(seg: string, n: nat)
    ensures ArrayIndex(seg) == Some(n) <==> seg == Decimal(n)
  {
    DigitsOfDecimal(n);
    if ArrayIndex(seg) == Some(n) {
      DecimalOfDigits(seg, n);
    }
  }

  /** A path reads an array's elements by place and its length by name, and nothing else of it. */
  lemma ArrayReads(row: Json, path: string, seg: string, items: seq<Json>)
    requires FieldOf(row, path) == Some(Arr(items)) && '.' !in seg
    ensures seg == "length" ==> FieldOf(row, path + "." + seg) == Some(Leaf(Num(|items| as real)))
    ensures forall n: nat :: seg == Decimal(n) && n < |items| ==> FieldOf(row, path + "." + seg) == Some(items[n])
    ensures seg != "length" && (forall n: nat :: n < |items| ==> seg != Decimal(n)) ==>
              FieldOf(row, path + "." + seg) == None
  {
    PathStep(row, path, seg);
    forall n: nat ensures ArrayIndex(seg) == Some(n) <==> seg == Decimal(n) {
      ArrayIndexIff(seg, n);
    }
  }

  // ---- sort keys ----

  predicate Missing(f: Field) {
    f == None || f == Some(Leaf(Null))
  }

  predicate BothNumbers(a: Field, b: Field) {
    a.Some? && b.Some? && a.value.Leaf? && b.value.Leaf? && a.value.v.Num? && b.value.v.Num?
  }

  predicate BothTexts(a: Field, b: Field) {
    a.Some? && b.Some? && a.value.Leaf? && b.value.Leaf? && a.value.v.Text? && b.value.v.Text?
  }

  /** Absent and null go last and tie; numbers go by size, texts by code point; all else ties. */
  lemma SortPlaces(a: Field, b: Field)
    ensures Missing(a) && Missing(b) ==> CompareForSort(a, b) == 0
    ensures Missing(a) && !Missing(b) ==> CompareForSort(a, b) > 0
    ensures !Missing(a) && Missing(b) ==> CompareForSort(a, b) < 0
    ensures BothNumbers(a, b) ==> (CompareForSort(a, b) <= 0 <==> a.value.v.n <= b.value.v.n)
    ensures BothNumbers(a, b) ==> (CompareForSort(a, b) >= 0 <==> a.value.v.n >= b.value.v.n)
    ensures BothTexts(a, b) ==> CompareForSort(a, b) == Compare(a.value.v.s, b.value.v.s)
    ensures !Missing(a) && !Missing(b) && !BothNumbers(a, b) && !BothTexts(a, b) ==> CompareForSort(a, b) == 0
  {
    if BothTexts(a, b) {
      OrdersAgree(a.value.v.s, b.value.v.s);
    }
  }

  function FieldOrder(): (Field, Field) -> int {
    (a, b) => CompareForSort(a, b)
  }

  /** Where two values are told apart, a third is of their kind. */
  ghost predicate Unmixed(has: Field -> bool, x: Field, y: Field, z: Field) {
    has(x) && has(y) && has(z) && !Missing(x) && !Missing(y) && !Missing(z) && CompareForSort(x, y) != 0 ==>
      BothNumbers(x, z) || BothTexts(x, z)
  }

  lemma SortTransitive(has: Field -> bool, a: Field, b: Field, c: Field)
    requires has(a) && has(b) && has(c) && Unmixed(has, a, c, b)
    requires CompareForSort(a, b) <= 0 && CompareForSort(b, c) <= 0
    ensures CompareForSort(a, c) <= 0
  {
    SortPlaces(a, b);
    SortPlaces(b, c);
    SortPlaces(a, c);
    if BothTexts(a, b) && BothTexts(b, c) {
      CompareIsTotal(a.value.v.s, b.value.v.s, c.value.v.s);
    }
  }

  lemma SortAntisymmetric(a: Field, b: Field)
    ensures CompareForSort(a, b) == -CompareForSort(b, a)
  {
    if BothTexts(a, b) {
      TextTotal(a.value.v.s, b.value.v.s, "");
    }
  }

  lemma MixedBreaks(has: Field -> bool, x: Field, y: Field, z: Field)
    requires Preorder(FieldOrder(), has)
    ensures Unmixed(has, x, y, z)
  {
    var cmp := FieldOrder();
    assert has(x) && has(y) && has(z) && cmp(x, z) <= 0 && cmp(z, y) <= 0 ==> cmp(x, y) <= 0;
    assert has(x) && has(y) && has(z) && cmp(y, z) <= 0 && cmp(z, x) <= 0 ==> cmp(y, x) <= 0;
    SortPlaces(x, y);
    SortPlaces(x, z);
    SortPlaces(y, z);
    SortAntisymmetric(x, y);
    SortAntisymmetric(x, z);
    SortAntisymmetric(y, z);
  }

  /**
   * The sort comparison orders some values at all exactly if it tells no two of them apart beside one of another kind:
   * values of two kinds tie, whatever they are.
   */
  lemma SortsIff(has: Field -> bool)
    ensures Preorder(FieldOrder(), has) <==> forall x, y, z :: Unmixed(has, x, y, z)
  {
    if Preorder(FieldOrder(), has) {
      forall x, y, z ensures Unmixed(has, x, y, z) {
        MixedBreaks(has, x, y, z);
      }
    }
    if forall x, y, z :: Unmixed(has, x, y, z) {
      forall a, b | has(a) && has(b) ensures FieldOrder()(a, b) == -FieldOrder()(b, a) {
        SortAntisymmetric(a, b);
      }
      forall a, b, c | has(a) && has(b) && has(c) && FieldOrder()(a, b) <= 0 && FieldOrder()(b, c) <= 0
        ensures FieldOrder()(a, c) <= 0
      {
        SortTransitive(has, a, b, c);
      }
    }
  }

  /** Two is not above "a", nor "a" above one, but two is above one. */
  lemma MixedSortExample(two: Field, a: Field, one: Field)
    requires two == Some(Leaf(Num(2.0))) && a == Some(Leaf(Text("a"))) && one == Some(Leaf(Num(1.0)))
    ensures CompareForSort(two, a) == 0 && CompareForSort(a, one) == 0 && CompareForSort(two, one) > 0
  {
  }

  function KeyOrder(o: OrderBy, a: Json, b: Json): int {
    CompareForSort(FieldOf(a, o.field), FieldOf(b, o.field))
  }

  /** The first sort key that tells two rows apart decides, turned round where it is descending; none, and they tie. */
  lemma {:induction false} FirstKeyDecides(orderBy: seq<OrderBy>, a: Json, b: Json, k: nat)
    requires k <= |orderBy| && forall i :: 0 <= i < k ==> KeyOrder(orderBy[i], a, b) == 0
    requires k < |orderBy| ==> KeyOrder(orderBy[k], a, b) != 0
    ensures k == |orderBy| ==> CompareRows(orderBy, a, b) == 0
    ensures k < |orderBy| && !orderBy[k].desc ==> CompareRows(orderBy, a, b) == KeyOrder(orderBy[k], a, b)
    ensures k < |orderBy| && orderBy[k].desc ==> CompareRows(orderBy, a, b) == -KeyOrder(orderBy[k], a, b)
  {
    if orderBy != [] && k > 0 {
      assert KeyOrder(orderBy[0], a, b) == 0;
      FirstKeyDecides(orderBy[1..], a, b, k - 1);
    }
  }

  // ---- grouped counts ----

  /** One value is listed no later than another: booleans (false first), numbers, texts by code point, null. */
  predicate ListedBefore(a: Scalar, b: Scalar) {
    match a
    case Bool(x) => b.Bool? ==> (x ==> b.b)
    case Num(x) => !b.Bool? && (b.Num? ==> x <= b.n)
    case Text(x) => !b.Bool? && !b.Num? && (b.Text? ==> Compare(x, b.s) <= 0)
    case Null => b.Null?
  }

  lemma ValueOrder(a: Scalar, b: Scalar)
    ensures CompareValue(a, b) <= 0 <==> ListedBefore(a, b)
  {
    if a.Text? && b.Text? {
      OrdersAgree(a.s, b.s);
    }
  }

  /** Asked by value, values alone count; else the larger count goes first, and values decide between equal ones. */
  predicate CountBefore(byValue: bool, x: ValueCount, y: ValueCount) {
    if byValue || x.count == y.count then ListedBefore(x.value, y.value) else x.count > y.count
  }

  lemma CountOrder(byValue: bool, x: ValueCount, y: ValueCount)
    ensures CompareCounts(byValue)(x, y) <= 0 <==> CountBefore(byValue, x, y)
  {
    ValueOrder(x.value, y.value);
  }

  /**
   * The listing of grouped counts: as many as the limit allows, each of the groups, in their order, and whatever is cut
   * off belongs after all of them.
   */
  lemma CountsListed(groups: seq<ValueCount>, byValue: bool, limit: Option<nat>, out: seq<ValueCount>)
      returns (cut: seq<ValueCount>)
    requires out == OrderValueCounts(groups, byValue, limit)
    ensures |out| == if limit.Some? && limit.value < |groups| then limit.value else |groups|
    ensures multiset(out) + multiset(cut) == multiset(groups)
    ensures forall i, j :: 0 <= i < j < |out| ==> CountBefore(byValue, out[i], out[j])
    ensures forall i, j :: 0 <= i < |out| && 0 <= j < |cut| ==> CountBefore(byValue, out[i], cut[j])
  {
    var sorted := Sort(CompareCounts(byValue), groups);
    SortedCounts(groups, byValue, sorted);
    cut := sorted[|out|..];
    assert sorted == out + cut;
    forall i, j | 0 <= i < |out| && 0 <= j < |cut| ensures CountBefore(byValue, out[i], cut[j]) {
      assert cut[j] == sorted[|out| + j];
    }
  }

  lemma SortedCounts(groups: seq<ValueCount>, byValue: bool, sorted: seq<ValueCount>)
    requires sorted == Sort(CompareCounts(byValue), groups)
    ensures |sorted| == |groups| && multiset(sorted) == multiset(groups)
    ensures forall i, j :: 0 <= i < j < |sorted| ==> CountBefore(byValue, sorted[i], sorted[j])
  {
    var cmp, ok := CompareCounts(byValue), (x: ValueCount) => true;
    CountsPreorder(byValue, ok);
    SortSorts(cmp, ok, groups);
    assert |multiset(sorted)| == |multiset(groups)|;
    forall i, j | 0 <= i < j < |sorted| ensures CountBefore(byValue, sorted[i], sorted[j]) {
      assert cmp(sorted[i], sorted[j]) <= 0;
      CountOrder(byValue, sorted[i], sorted[j]);
    }
  }
}
