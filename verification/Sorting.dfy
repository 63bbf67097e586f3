/** Filtering and stable sorting of sequences, and what two sorted orders of the same elements share. */
module Sorting {
  function Filter<T>(s: seq<T>, p: T -> bool): seq<T> {
    if s == [] then [] else (if p(s[0]) then [s[0]] else []) + Filter(s[1..], p)
  }

  lemma {:induction false} FilterConcat<T>(a: seq<T>, b: seq<T>, p: T -> bool)
    ensures Filter(a + b, p) == Filter(a, p) + Filter(b, p)
  {
    if a == [] {
      assert a + b == b;
    } else {
      var head := if p(a[0]) then [a[0]] else [];
      assert (a + b)[0] == a[0] && (a + b)[1..] == a[1..] + b;
      FilterConcat(a[1..], b, p);
      assert head + (Filter(a[1..], p) + Filter(b, p)) == head + Filter(a[1..], p) + Filter(b, p);
    }
  }

  function Without<T>(s: seq<T>, j: nat): seq<T>
    requires j < |s|
  {
    s[..j] + s[j + 1..]
  }

  lemma WithoutMultiset<T>(s: seq<T>, j: nat)
    requires j < |s|
    ensures multiset(Without(s, j)) == multiset(s) - multiset{s[j]}
  {
    assert s == s[..j] + [s[j]] + s[j + 1..];
    assert multiset(s) == multiset(Without(s, j)) + multiset{s[j]};
  }

  lemma FilterWithout<T>(s: seq<T>, j: nat, p: T -> bool)
    requires j < |s|
    ensures multiset(Filter(s, p)) ==
              multiset(Filter(Without(s, j), p)) + (if p(s[j]) then multiset{s[j]} else multiset{})
    ensures |Filter(s, p)| == |Filter(Without(s, j), p)| + if p(s[j]) then 1 else 0
  {
    var head, tail := s[..j], s[j + 1..];
    assert s == head + ([s[j]] + tail);
    FilterConcat(head, tail, p);
    FilterConcat(head, [s[j]] + tail, p);
    FilterConcat([s[j]], tail, p);
    assert Filter([s[j]], p) == if p(s[j]) then [s[j]] else [];
  }

  lemma {:induction false} FilterOfPermutation<T>(a: seq<T>, b: seq<T>, p: T -> bool)
    requires multiset(a) == multiset(b)
    ensures multiset(Filter(a, p)) == multiset(Filter(b, p))
    ensures |Filter(a, p)| == |Filter(b, p)|
    decreases |a|
  {
    if a == [] {
      assert |multiset(b)| == 0;
    } else {
      assert a[0] in multiset(b);
      var j :| 0 <= j < |b| && b[j] == a[0];
      WithoutMultiset(a, 0);
      WithoutMultiset(b, j);
      FilterWithout(a, 0, p);
      FilterWithout(b, j, p);
      FilterOfPermutation(Without(a, 0), Without(b, j), p);
    }
  }

  /** Filtering by a condition everything kept by another already meets changes nothing. */
  lemma {:induction false} FilterTwice<T>(s: seq<T>, wide: T -> bool, narrow: T -> bool)
    requires forall x :: x in s && narrow(x) ==> wide(x)
    ensures Filter(Filter(s, wide), narrow) == Filter(s, narrow)
  {
    if s != [] {
      assert forall x :: x in s[1..] ==> x in s;
      FilterTwice(s[1..], wide, narrow);
      FilterConcat(if wide(s[0]) then [s[0]] else [], Filter(s[1..], wide), narrow);
    }
  }

  lemma {:induction false} FilterSame<T>(s: seq<T>, p: T -> bool, q: T -> bool)
    requires forall x :: x in s ==> p(x) == q(x)
    ensures Filter(s, p) == Filter(s, q)
  {
    if s != [] {
      FilterSame(s[1..], p, q);
    }
  }

  lemma {:induction false} FilterMembers<T>(s: seq<T>, p: T -> bool)
    ensures forall x :: x in Filter(s, p) <==> x in s && p(x)
  {
    if s != [] {
      FilterMembers(s[1..], p);
    }
  }

  // ---- sorting ----

  /** `s` with `x` put in after everything not above it. */
  function Insert<T>(cmp: (T, T) -> int, s: seq<T>, x: T): seq<T> {
    if s == [] || cmp(s[|s| - 1], x) <= 0 then s + [x]
    else Insert(cmp, s[..|s| - 1], x) + [s[|s| - 1]]
  }

  /** The stable sort. */
  function Sort<T>(cmp: (T, T) -> int, s: seq<T>): seq<T> {
    if s == [] then [] else Insert(cmp, Sort(cmp, s[..|s| - 1]), s[|s| - 1])
  }

  /** On the values that are `ok`, `cmp` is a total preorder. */
  ghost predicate Preorder<T(!new)>(cmp: (T, T) -> int, ok: T -> bool) {
    && (forall a, b :: ok(a) && ok(b) ==> cmp(a, b) == -cmp(b, a))
    && (forall a, b, c :: ok(a) && ok(b) && ok(c) && cmp(a, b) <= 0 && cmp(b, c) <= 0 ==> cmp(a, c) <= 0)
  }

  ghost predicate AllOk<T>(s: seq<T>, ok: T -> bool) {
    forall i :: 0 <= i < |s| ==> ok(s[i])
  }

  ghost predicate Sorted<T>(cmp: (T, T) -> int, s: seq<T>) {
    forall i, j :: 0 <= i < j < |s| ==> cmp(s[i], s[j]) <= 0
  }

  ghost predicate AllBelow<T>(cmp: (T, T) -> int, s: seq<T>, top: T) {
    forall i :: 0 <= i < |s| ==> cmp(s[i], top) <= 0
  }

  lemma {:induction false} InsertBelow<T>(cmp: (T, T) -> int, s: seq<T>, x: T, top: T)
    requires AllBelow(cmp, s, top) && cmp(x, top) <= 0
    ensures AllBelow(cmp, Insert(cmp, s, x), top)
  {
    if s != [] && cmp(s[|s| - 1], x) > 0 {
      InsertBelow(cmp, s[..|s| - 1], x, top);
    }
  }

  lemma {:induction false} InsertOk<T>(cmp: (T, T) -> int, ok: T -> bool, s: seq<T>, x: T)
    requires AllOk(s, ok) && ok(x)
    ensures AllOk(Insert(cmp, s, x), ok)
  {
    if s != [] && cmp(s[|s| - 1], x) > 0 {
      InsertOk(cmp, ok, s[..|s| - 1], x);
    }
  }

  lemma SortedSnoc<T>(cmp: (T, T) -> int, s: seq<T>, top: T)
    requires Sorted(cmp, s) && AllBelow(cmp, s, top)
    ensures Sorted(cmp, s + [top])
  {
  }

  lemma {:induction false} InsertSorted<T(!new)>(cmp: (T, T) -> int, ok: T -> bool, s: seq<T>, x: T)
    requires Preorder(cmp, ok) && AllOk(s, ok) && ok(x) && Sorted(cmp, s)
    ensures Sorted(cmp, Insert(cmp, s, x))
  {
    if s != [] {
      var init, last := s[..|s| - 1], s[|s| - 1];
      assert ok(last);
      if cmp(last, x) <= 0 {
        forall i | 0 <= i < |s| ensures cmp(s[i], x) <= 0 {
          assert ok(s[i]);
          assert i < |s| - 1 ==> cmp(s[i], last) <= 0;
        }
        SortedSnoc(cmp, s, x);
      } else {
        InsertSorted(cmp, ok, init, x);
        assert AllBelow(cmp, init, last);
        InsertBelow(cmp, init, x, last);
        SortedSnoc(cmp, Insert(cmp, init, x), last);
      }
    }
  }

  lemma {:induction false} SortSorts<T(!new)>(cmp: (T, T) -> int, ok: T -> bool, s: seq<T>)
    requires Preorder(cmp, ok) && AllOk(s, ok)
    ensures Sorted(cmp, Sort(cmp, s)) && multiset(Sort(cmp, s)) == multiset(s) && AllOk(Sort(cmp, s), ok)
  {
    if s != [] {
      var init := s[..|s| - 1];
      assert s == init + [s[|s| - 1]];
      SortSorts(cmp, ok, init);
      InsertSorted(cmp, ok, Sort(cmp, init), s[|s| - 1]);
      InsertOk(cmp, ok, Sort(cmp, init), s[|s| - 1]);
      InsertPermutes(cmp, Sort(cmp, init), s[|s| - 1]);
    }
  }

  /** Whatever the comparator, sorting permutes. */
  lemma {:induction false} SortPermutes<T>(cmp: (T, T) -> int, s: seq<T>)
    ensures multiset(Sort(cmp, s)) == multiset(s)
  {
    if s != [] {
      var init := s[..|s| - 1];
      assert s == init + [s[|s| - 1]];
      SortPermutes(cmp, init);
      InsertPermutes(cmp, Sort(cmp, init), s[|s| - 1]);
    }
  }

  lemma {:induction false} InsertPermutes<T>(cmp: (T, T) -> int, s: seq<T>, x: T)
    ensures multiset(Insert(cmp, s, x)) == multiset(s) + multiset{x}
  {
    if s != [] && cmp(s[|s| - 1], x) > 0 {
      InsertPermutes(cmp, s[..|s| - 1], x);
      assert s == s[..|s| - 1] + [s[|s| - 1]];
    }
  }

  /** Putting one element in: those that tie with `pivot` stay as they come, the new one last. */
  lemma {:induction false} InsertStable<T(!new)>(cmp: (T, T) -> int, ok: T -> bool, s: seq<T>, x: T, pivot: T)
    requires Preorder(cmp, ok) && AllOk(s, ok) && ok(x) && ok(pivot)
    ensures Filter(Insert(cmp, s, x), y => cmp(y, pivot) == 0) == Filter(s + [x], y => cmp(y, pivot) == 0)
  {
    var ties := y => cmp(y, pivot) == 0;
    if s != [] && cmp(s[|s| - 1], x) > 0 {
      var init, last := s[..|s| - 1], s[|s| - 1];
      assert ok(last) && s == init + [last];
      InsertStable(cmp, ok, init, x, pivot);
      FilterConcat(Insert(cmp, init, x), [last], ties);
      FilterConcat(init, [x], ties);
      FilterConcat(init, [last], ties);
      FilterConcat(s, [x], ties);
      NotBothTie(cmp, ok, last, x, pivot);
    }
  }

  lemma NotBothTie<T(!new)>(cmp: (T, T) -> int, ok: T -> bool, a: T, b: T, pivot: T)
    requires Preorder(cmp, ok) && ok(a) && ok(b) && ok(pivot) && cmp(a, b) > 0
    ensures cmp(a, pivot) != 0 || cmp(b, pivot) != 0
  {
    assert cmp(pivot, b) == -cmp(b, pivot);
  }

  /** The sort is stable: the elements that tie with any one keep their order and number. */
  lemma {:induction false} SortStable<T(!new)>(cmp: (T, T) -> int, ok: T -> bool, s: seq<T>, pivot: T)
    requires Preorder(cmp, ok) && AllOk(s, ok) && ok(pivot)
    ensures Filter(Sort(cmp, s), y => cmp(y, pivot) == 0) == Filter(s, y => cmp(y, pivot) == 0)
  {
    var ties := y => cmp(y, pivot) == 0;
    if s != [] {
      var init, last := s[..|s| - 1], s[|s| - 1];
      assert s == init + [last] && ok(last);
      SortStable(cmp, ok, init, pivot);
      SortSorts(cmp, ok, init);
      InsertStable(cmp, ok, Sort(cmp, init), last, pivot);
      FilterConcat(Sort(cmp, init), [last], ties);
      FilterConcat(init, [last], ties);
    }
  }

  /** A comparator that ties everything leaves the order alone. */
  lemma {:induction false} SortTies<T>(cmp: (T, T) -> int, s: seq<T>)
    requires forall a, b :: a in s && b in s ==> cmp(a, b) <= 0
    ensures Sort(cmp, s) == s
  {
    if s != [] {
      var init := s[..|s| - 1];
      assert s == init + [s[|s| - 1]];
      SortTies(cmp, init);
    }
  }

  lemma {:induction false} FilterAll<T>(s: seq<T>, p: T -> bool)
    requires forall i :: 0 <= i < |s| ==> p(s[i])
    ensures Filter(s, p) == s
  {
    if s != [] {
      FilterAll(s[1..], p);
    }
  }

  lemma {:induction false} FilterNone<T>(s: seq<T>, p: T -> bool)
    requires forall i :: 0 <= i < |s| ==> !p(s[i])
    ensures Filter(s, p) == []
  {
    if s != [] {
      FilterNone(s[1..], p);
    }
  }

  lemma {:induction false} FilterLength<T>(s: seq<T>, p: T -> bool)
    ensures |Filter(s, p)| <= |s|
  {
    if s != [] {
      FilterLength(s[1..], p);
    }
  }

  /** Two sorted orders of the same elements agree, position by position, up to ties. */
  lemma SortedAgree<T(!new)>(cmp: (T, T) -> int, ok: T -> bool, a: seq<T>, b: seq<T>, i: nat)
    requires Preorder(cmp, ok) && AllOk(a, ok) && AllOk(b, ok)
    requires Sorted(cmp, a) && Sorted(cmp, b) && multiset(a) == multiset(b) && i < |a|
    ensures |b| == |a| && cmp(a[i], b[i]) == 0
  {
    assert |multiset(a)| == |multiset(b)|;
    NotBelow(cmp, ok, a, b, i);
    NotBelow(cmp, ok, b, a, i);
    assert ok(a[i]) && ok(b[i]);
  }

  /** The elements up to the `i`th of a sorted order are at most the `i`th. */
  lemma LowCount<T>(cmp: (T, T) -> int, a: seq<T>, i: nat, low: T -> bool)
    requires Sorted(cmp, a) && i < |a| && cmp(a[i], a[i]) == 0
    requires forall j :: 0 <= j < |a| ==> (low(a[j]) <==> cmp(a[j], a[i]) <= 0)
    ensures |Filter(a, low)| >= i + 1
  {
    var head := a[..i + 1];
    forall j | 0 <= j < |head| ensures low(head[j]) {
      assert head[j] == a[j];
    }
    FilterAll(head, low);
    FilterConcat(head, a[i + 1..], low);
    assert a == head + a[i + 1..];
  }

  lemma StaysAbove<T(!new)>(cmp: (T, T) -> int, ok: T -> bool, pivot: T, x: T, y: T)
    requires Preorder(cmp, ok) && ok(pivot) && ok(x) && ok(y)
    requires cmp(pivot, x) < 0 && cmp(x, y) <= 0
    ensures cmp(y, pivot) > 0
  {
  }

  /** From the `i`th on, a sorted order is above whatever the `i`th is above. */
  lemma HighCount<T>(b: seq<T>, i: nat, low: T -> bool)
    requires i < |b| && forall j :: i <= j < |b| ==> !low(b[j])
    ensures |Filter(b, low)| <= i
  {
    var tail := b[i..];
    FilterNone(tail, low);
    FilterConcat(b[..i], tail, low);
    FilterLength(b[..i], low);
    assert b == b[..i] + tail;
  }

  lemma NotBelow<T(!new)>(cmp: (T, T) -> int, ok: T -> bool, a: seq<T>, b: seq<T>, i: nat)
    requires Preorder(cmp, ok) && AllOk(a, ok) && AllOk(b, ok)
    requires Sorted(cmp, a) && Sorted(cmp, b) && multiset(a) == multiset(b) && i < |a| && |a| == |b|
    ensures cmp(a[i], b[i]) >= 0
  {
    if cmp(a[i], b[i]) < 0 {
      var pivot := a[i];
      var low := (x: T) => cmp(x, pivot) <= 0;
      assert ok(pivot) && cmp(pivot, pivot) == 0;
      LowCount(cmp, a, i, low);
      forall j | i <= j < |b| ensures !low(b[j]) {
        assert ok(b[i]) && ok(b[j]);
        if i < j {
          StaysAbove(cmp, ok, pivot, b[i], b[j]);
        } else {
          assert cmp(b[i], pivot) == -cmp(pivot, b[i]);
        }
      }
      HighCount(b, i, low);
      FilterOfPermutation(a, b, low);
    }
  }

  // ---- mapping ----

  function Mapped<T, U>(s: seq<T>, f: T -> U): (r: seq<U>)
    ensures |r| == |s| && forall i :: 0 <= i < |s| ==> r[i] == f(s[i])
  {
    seq(|s|, i requires 0 <= i < |s| => f(s[i]))
  }

  lemma {:induction false} FilterMapped<T, U>(s: seq<T>, f: T -> U, p: U -> bool, q: T -> bool)
    requires forall i :: 0 <= i < |s| ==> q(s[i]) == p(f(s[i]))
    ensures Filter(Mapped(s, f), p) == Mapped(Filter(s, q), f)
  {
    if s != [] {
      assert Mapped(s, f)[1..] == Mapped(s[1..], f);
      FilterMapped(s[1..], f, p, q);
      assert q(s[0]) ==> Filter(s, q)[1..] == Filter(s[1..], q);
    }
  }

  lemma MappedWithout<T, U>(s: seq<T>, j: nat, f: T -> U)
    requires j < |s|
    ensures multiset(Mapped(s, f)) == multiset(Mapped(Without(s, j), f)) + multiset{f(s[j])}
  {
    var m := Mapped(s, f);
    assert Mapped(Without(s, j), f) == m[..j] + m[j + 1..];
    assert m == m[..j] + [m[j]] + m[j + 1..];
  }

  lemma {:induction false} MappedPermutation<T, U>(a: seq<T>, b: seq<T>, f: T -> U)
    requires multiset(a) == multiset(b)
    ensures multiset(Mapped(a, f)) == multiset(Mapped(b, f))
    decreases |a|
  {
    if a == [] {
      assert |multiset(b)| == 0;
    } else {
      assert a[0] in multiset(b);
      var j :| 0 <= j < |b| && b[j] == a[0];
      WithoutMultiset(a, 0);
      WithoutMultiset(b, j);
      MappedWithout(a, 0, f);
      MappedWithout(b, j, f);
      MappedPermutation(Without(a, 0), Without(b, j), f);
    }
  }

  lemma MappedBack<T, U>(s: seq<T>, f: T -> U, g: U -> T)
    requires forall i :: 0 <= i < |s| ==> g(f(s[i])) == s[i]
    ensures Mapped(Mapped(s, f), g) == s
  {
  }
}
