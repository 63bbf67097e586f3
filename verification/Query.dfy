/** The collection query language: filters over JSON rows, their evaluator, ordering, windows and grouped counts. */
module Query {
  import opened Options
  import opened TextOrder
  import opened Patterns
  import opened Sorting

  /** A comparable leaf value. Numbers are reals: no NaN, and rounding is not the point. */
  datatype Scalar = Null | Bool(b: bool) | Num(n: real) | Text(s: string)

  datatype Json = Leaf(v: Scalar) | Arr(items: seq<Json>) | Obj(fields: map<string, Json>)

  /** A field as read: `None` is `undefined`, which is not `null`. */
  type Field = Option<Json>

  datatype Cmp = Lt | Lte | Gt | Gte

  datatype Expr =
    | And(args: seq<Expr>)
    | Or(args: seq<Expr>)
    | Not(arg: Expr)
    | Eq(field: string, value: Scalar)
    | Neq(field: string, value: Scalar)
    | Range(cmp: Cmp, field: string, value: Scalar)
    | In(field: string, values: seq<Scalar>)
    | Like(field: string, pattern: string, ci: bool)
    | Has(field: string, value: Scalar)

  datatype OrderBy = OrderBy(field: string, desc: bool)

  datatype Query = Query(filter: Option<Expr>, orderBy: seq<OrderBy>, limit: Option<nat>, offset: Option<nat>)

  // ---- dot paths ----

  function IndexOf(s: string, c: char): (i: nat)
    ensures i <= |s| && c !in s[..i] && (i < |s| ==> s[i] == c)
  {
    if s == [] || s[0] == c then 0 else 1 + IndexOf(s[1..], c)
  }

  /** The first separator is where nothing before it is one; the end, where there is none. */
  lemma {:induction false} FirstAt(s: string, sep: char, n: nat)
    requires n <= |s| && sep !in s[..n] && (n < |s| ==> s[n] == sep)
    ensures IndexOf(s, sep) == n
  {
    if n > 0 {
      assert s[..n][0] == s[0] && s[1..][..n - 1] == s[..n][1..];
      FirstAt(s[1..], sep, n - 1);
    }
  }

  /** `s.split(sep)`. */
  function SplitOn(s: string, sep: char): (segs: seq<string>)
    ensures |segs| > 0
    decreases |s|
  {
    var at := IndexOf(s, sep);
    if at == |s| then [s] else [s[..at]] + SplitOn(s[at + 1..], sep)
  }

  function Split(path: string): (segs: seq<string>)
    ensures |segs| > 0
  {
    SplitOn(path, '.')
  }

  /** Reads an array's index from a path segment written as JavaScript writes one. */
  function Digits(s: string): Option<nat> {
    if s == [] then Some(0)
    else
      var init := Digits(s[..|s| - 1]);
      var c := s[|s| - 1];
      if init.Some? && '0' <= c <= '9' then Some(10 * init.value + (c as int - '0' as int)) else None
  }

  function ArrayIndex(seg: string): Option<nat> {
    if seg == [] || (seg[0] == '0' && |seg| > 1) then None else Digits(seg)
  }

  /** A property of a value: an object's own field; an array's length or element; nothing of anything else. */
  function Property(v: Json, seg: string): Field {
    match v
    case Leaf(_) => None
    case Obj(fields) => if seg in fields then Some(fields[seg]) else None
    case Arr(items) =>
      if seg == "length" then Some(Leaf(Num(|items| as real)))
      else
        var i := ArrayIndex(seg);
        if i.Some? && i.value < |items| then Some(items[i.value]) else None
  }

  function Walk(v: Field, segs: seq<string>): Field
    decreases |segs|
  {
    if segs == [] then v
    else if v.None? then None
    else Walk(Property(v.value, segs[0]), segs[1..])
  }

  function FieldOf(row: Json, path: string): Field {
    Walk(Some(row), Split(path))
  }

  function Own(row: Json, name: string): Field {
    if row.Obj? && name in row.fields then Some(row.fields[name]) else None
  }

  lemma UndottedIsWhole(field: string)
    requires '.' !in field
    ensures IndexOf(field, '.') == |field|
  {
    FirstAt(field, '.', |field|);
  }

  lemma ReadUndotted(row: Json, field: string)
    requires row.Obj? && IndexOf(field, '.') == |field|
    ensures FieldOf(row, field) == Own(row, field) && Split(field) == [field]
  {
    assert Split(field) == [field] && [field][1..] == [];
    assert Walk(Some(row), [field]) == Walk(Property(row, field), []);
  }

  lemma {:induction false} WalkNothing(segs: seq<string>)
    ensures Walk(None, segs) == None
  {
  }

  /** Reads a dot-path field off a row, one segment at a time. */
  method GetField(row: Json, path: string) returns (r: Field)
    ensures r == FieldOf(row, path)
  {
    if row.Leaf? {
      WalkNothing(Split(path)[1..]);
      return None;
    }
    if '.' !in path {
      assert Split(path) == [path] && [path][1..] == [];
      assert Walk(Some(row), [path]) == Walk(Property(row, path), []);
      return Property(row, path);
    }
    var segs := Split(path);
    var cur := Some(row);
    var i := 0;
    while i < |segs|
      invariant 0 <= i <= |segs|
      invariant FieldOf(row, path) == Walk(cur, segs[i..])
    {
      if cur.None? || cur.value.Leaf? {
        WalkNothing(segs[i..][1..]);
        return None;
      }
      assert segs[i..][1..] == segs[i + 1..];
      cur := Property(cur.value, segs[i]);
      i := i + 1;
    }
    return cur;
  }

  // ---- the evaluator ----

  predicate ScalarEq(a: Field, b: Scalar) {
    a == Some(Leaf(b))
  }

  /** The evaluator's text order, on UTF-16 code units. */
  function TextCompare(a: string, b: string): int {
    Lex(Lifted(Utf16(a)), Lifted(Utf16(b)))
  }

  lemma TextTotal(a: string, b: string, c: string)
    ensures TextCompare(a, b) == -TextCompare(b, a)
    ensures TextCompare(a, b) == 0 <==> a == b
    ensures TextCompare(a, b) <= 0 && TextCompare(b, c) <= 0 ==> TextCompare(a, c) <= 0
  {
    OrdersAgree(a, b);
    OrdersAgree(b, a);
    OrdersAgree(b, c);
    OrdersAgree(a, c);
    CompareIsTotal(a, b, c);
  }

  /** Orders two values of one comparable type; `None` is incomparable. */
  function CompareScalar(a: Field, b: Scalar): Option<int> {
    if a.None? || !a.value.Leaf? then None
    else
      match (a.value.v, b)
      case (Text(x), Text(y)) => Some(TextCompare(x, y))
      case (Num(x), Num(y)) => Some(if x < y then -1 else if x > y then 1 else 0)
      case _ => None
  }

  predicate Holds(cmp: Cmp, c: int) {
    match cmp
    case Lt => c < 0
    case Lte => c <= 0
    case Gt => c > 0
    case Gte => c >= 0
  }

  predicate Eval(fold: CaseFold, e: Expr, row: Json) {
    match e
    case And(args) => forall a :: a in args ==> Eval(fold, a, row)
    case Or(args) => exists a :: a in args && Eval(fold, a, row)
    case Not(arg) => !Eval(fold, arg, row)
    case Eq(f, v) => ScalarEq(FieldOf(row, f), v)
    case Neq(f, v) => !ScalarEq(FieldOf(row, f), v)
    case Range(cmp, f, v) =>
      var c := CompareScalar(FieldOf(row, f), v);
      c.Some? && Holds(cmp, c.value)
    case In(f, vs) => exists v :: v in vs && ScalarEq(FieldOf(row, f), v)
    case Like(f, pattern, ci) =>
      var v := FieldOf(row, f);
      v.Some? && v.value.Leaf? && v.value.v.Text? && Likes(fold, ci, pattern, v.value.v.s)
    case Has(f, v) =>
      var a := FieldOf(row, f);
      a.Some? && a.value.Arr? && Leaf(v) in a.value.items
  }

  predicate MatchesFilter(fold: CaseFold, filter: Option<Expr>, row: Json) {
    filter.None? || Eval(fold, filter.value, row)
  }

  // ---- routing exclusion ----

  /** Whether a filter is false on a row judged on `fields` alone: a leaf on any other field is unknown, never false. */
  predicate ExcludesOn(fold: CaseFold, e: Expr, row: Json, fields: seq<string>) {
    match e
    case And(args) => exists a :: a in args && ExcludesOn(fold, a, row, fields)
    case Or(args) => forall a :: a in args ==> ExcludesOn(fold, a, row, fields)
    case Not(_) => false
    case _ => e.field in fields && !Eval(fold, e, row)
  }

  ghost predicate AgreeOn(a: Json, b: Json, fields: seq<string>) {
    forall f :: f in fields ==> FieldOf(a, f) == FieldOf(b, f)
  }

  /** An excluded filter is false on every row that agrees on those fields. */
  lemma {:induction false} ExclusionSound(fold: CaseFold, e: Expr, row: Json, other: Json, fields: seq<string>)
    requires ExcludesOn(fold, e, row, fields) && AgreeOn(row, other, fields)
    ensures !Eval(fold, e, other)
  {
    match e
    case And(args) =>
      var a :| a in args && ExcludesOn(fold, a, row, fields);
      ExclusionSound(fold, a, row, other, fields);
    case Or(args) =>
      forall a | a in args ensures !Eval(fold, a, other) {
        ExclusionSound(fold, a, row, other, fields);
      }
    case Not(_) =>
    case _ =>
  }

  // ---- order and window ----

  function CompareForSort(a: Field, b: Field): int {
    var an := a.None? || a == Some(Leaf(Null));
    var bn := b.None? || b == Some(Leaf(Null));
    if an || bn then (if an == bn then 0 else if an then 1 else -1)
    else if b.value.Leaf? then
      var c := CompareScalar(a, b.value.v);
      if c.Some? then c.value else 0
    else 0
  }

  function CompareRows(orderBy: seq<OrderBy>, a: Json, b: Json): int {
    if orderBy == [] then 0
    else
      var c := CompareForSort(FieldOf(a, orderBy[0].field), FieldOf(b, orderBy[0].field));
      if c != 0 then (if orderBy[0].desc then -c else c) else CompareRows(orderBy[1..], a, b)
  }

  function RowOrder(orderBy: seq<OrderBy>): (Json, Json) -> int {
    (a, b) => CompareRows(orderBy, a, b)
  }

  function Passes(fold: CaseFold, filter: Option<Expr>): Json -> bool {
    row => MatchesFilter(fold, filter, row)
  }

  function Window<T>(s: seq<T>, offset: nat, limit: Option<nat>): seq<T> {
    var from := Min(offset, |s|);
    var to := if limit.None? then |s| else Min(offset + limit.value, |s|);
    s[from..to]
  }

  /** The rows that pass, sorted (stably), before any window. */
  function Ordered(fold: CaseFold, rows: seq<Json>, q: Query): seq<Json> {
    var out := Filter(rows, Passes(fold, q.filter));
    if q.orderBy == [] then out else Sort(RowOrder(q.orderBy), out)
  }

  /** A snapshot: filter, sort, then offset and limit. */
  function ApplyQuery(fold: CaseFold, rows: seq<Json>, q: Query): seq<Json> {
    Window(Ordered(fold, rows, q), if q.offset.Some? then q.offset.value else 0, q.limit)
  }

  /**
   * The window: row `i` of the answer is row `offset + i` of the passing rows in their order, and there are as many as
   * the limit allows of those the offset leaves.
   */
  lemma AnswerRows(fold: CaseFold, rows: seq<Json>, q: Query, a: seq<Json>, sorted: seq<Json>, offset: nat)
    requires a == ApplyQuery(fold, rows, q) && sorted == Ordered(fold, rows, q)
    requires offset == if q.offset.Some? then q.offset.value else 0
    ensures multiset(sorted) == multiset(Filter(rows, Passes(fold, q.filter)))
    ensures var left := if offset < |sorted| then |sorted| - offset else 0;
            |a| == if q.limit.Some? && q.limit.value < left then q.limit.value else left
    ensures forall i :: 0 <= i < |a| ==> offset + i < |sorted| && a[i] == sorted[offset + i]
  {
    SortPermutes(RowOrder(q.orderBy), Filter(rows, Passes(fold, q.filter)));
    WindowRows(sorted, offset, q.limit, a);
  }

  lemma WindowRows<T>(s: seq<T>, offset: nat, limit: Option<nat>, w: seq<T>)
    requires w == Window(s, offset, limit)
    ensures var left := if offset < |s| then |s| - offset else 0;
            |w| == if limit.Some? && limit.value < left then limit.value else left
    ensures forall i :: 0 <= i < |w| ==> offset + i < |s| && w[i] == s[offset + i]
  {
  }

  /** Pages: the answer up to a limit followed by the next from there on is the answer up to both limits together. */
  lemma Pages(fold: CaseFold, rows: seq<Json>, filter: Option<Expr>, orderBy: seq<OrderBy>, from: nat, n: nat, m: nat)
    ensures ApplyQuery(fold, rows, Query(filter, orderBy, Some(n), Some(from))) +
            ApplyQuery(fold, rows, Query(filter, orderBy, Some(m), Some(from + n))) ==
            ApplyQuery(fold, rows, Query(filter, orderBy, Some(n + m), Some(from)))
  {
    var sorted := Ordered(fold, rows, Query(filter, orderBy, None, None));
    assert Window(sorted, from, Some(n)) + Window(sorted, from + n, Some(m)) == Window(sorted, from, Some(n + m));
  }

  /** Rows that filter alike answer alike. */
  lemma SameAnswer(fold: CaseFold, a: seq<Json>, b: seq<Json>, q: Query)
    requires Filter(a, Passes(fold, q.filter)) == Filter(b, Passes(fold, q.filter))
    ensures ApplyQuery(fold, a, q) == ApplyQuery(fold, b, q)
  {
  }

  // ---- grouped counts ----

  /** The values a row is counted under: a scalar itself, an array's distinct scalars, nothing else. */
  function GroupsOf(v: Field): set<Scalar> {
    if v.None? then {}
    else match v.value
      case Leaf(s) => {s}
      case Arr(items) => set x | x in items && x.Leaf? :: x.v
      case Obj(_) => {}
  }

  function CountOf(rows: seq<Json>, field: string, v: Scalar): nat {
    if rows == [] then 0
    else CountOf(rows[..|rows| - 1], field, v) + if v in GroupsOf(FieldOf(rows[|rows| - 1], field)) then 1 else 0
  }

  /** `groups` counts, for each value some row is counted under, the rows that are. */
  ghost predicate Groups(groups: map<Scalar, nat>, rows: seq<Json>, field: string) {
    forall v :: (v in groups <==> CountOf(rows, field, v) > 0) && (v in groups ==> groups[v] == CountOf(rows, field, v))
  }

  /** Counts rows per value of `field`. */
  method CountValues(rows: seq<Json>, field: string) returns (groups: map<Scalar, nat>)
    ensures Groups(groups, rows, field)
  {
    groups := map[];
    var i := 0;
    while i < |rows|
      invariant 0 <= i <= |rows|
      invariant Groups(groups, rows[..i], field)
    {
      assert rows[..i + 1][..i] == rows[..i];
      var values := GroupsOf(FieldOf(rows[i], field));
      var todo := values;
      while todo != {}
        invariant todo <= values
        invariant forall v :: if v in values - todo
                              then v in groups && groups[v] == CountOf(rows[..i], field, v) + 1
                              else (v in groups <==> CountOf(rows[..i], field, v) > 0) &&
                                   (v in groups ==> groups[v] == CountOf(rows[..i], field, v))
        decreases todo
      {
        var x :| x in todo;
        groups := groups[x := (if x in groups then groups[x] else 0) + 1];
        todo := todo - {x};
      }
      i := i + 1;
    }
    assert rows[..i] == rows;
  }

  datatype ValueCount = ValueCount(value: Scalar, count: nat)

  function Rank(v: Scalar): int {
    match v
    case Bool(_) => 0
    case Num(_) => 1
    case Text(_) => 2
    case Null => 3
  }

  /** Booleans, then numbers, then texts by code point, then null. */
  function CompareValue(a: Scalar, b: Scalar): int {
    if Rank(a) != Rank(b) || a.Null? then Rank(a) - Rank(b)
    else if a.Bool? then (if a.b then 1 else 0) - (if b.b then 1 else 0)
    else
      var c := CompareScalar(Some(Leaf(a)), b);
      if c.Some? then c.value else 0
  }

  function CompareCounts(byValue: bool): (ValueCount, ValueCount) -> int {
    (x: ValueCount, y: ValueCount) =>
      if !byValue && x.count != y.count then y.count - x.count else CompareValue(x.value, y.value)
  }

  /** Orders and trims grouped counts. */
  function OrderValueCounts(groups: seq<ValueCount>, byValue: bool, limit: Option<nat>): seq<ValueCount> {
    Window(Sort(CompareCounts(byValue), groups), 0, limit)
  }

  lemma CompareValueTotal(a: Scalar, b: Scalar, c: Scalar)
    ensures CompareValue(a, b) == -CompareValue(b, a)
    ensures CompareValue(a, b) == 0 <==> a == b
    ensures CompareValue(a, b) <= 0 && CompareValue(b, c) <= 0 ==> CompareValue(a, c) <= 0
  {
    if a.Text? && b.Text? {
      TextTotal(a.s, b.s, if c.Text? then c.s else "");
    }
  }

  ghost predicate DistinctValues(groups: seq<ValueCount>) {
    forall x, y :: x in groups && y in groups && x.value == y.value ==> x == y
  }

  lemma SamePlace(a: seq<ValueCount>, b: seq<ValueCount>, byValue: bool, ok: ValueCount -> bool, i: nat)
    requires Preorder(CompareCounts(byValue), ok) && AllOk(a, ok) && AllOk(b, ok)
    requires Sorted(CompareCounts(byValue), a) && Sorted(CompareCounts(byValue), b)
    requires multiset(a) == multiset(b) && DistinctValues(a) && i < |a|
    ensures |a| == |b| && a[i] == b[i]
  {
    SortedAgree(CompareCounts(byValue), ok, a, b, i);
    CompareValueTotal(a[i].value, b[i].value, Null);
    assert a[i] in a && b[i] in multiset(b) && b[i] in multiset(a);
  }

  lemma DistinctPermuted(a: seq<ValueCount>, b: seq<ValueCount>)
    requires multiset(a) == multiset(b) && DistinctValues(a)
    ensures DistinctValues(b)
  {
    forall x, y | x in b && y in b && x.value == y.value ensures x == y {
      assert x in multiset(b) && y in multiset(b);
      assert x in multiset(a) && y in multiset(a);
    }
  }

  /** However the groups come, their order is the same: the listing is a function of the counts alone. */
  lemma OrderIsCanonical(a: seq<ValueCount>, b: seq<ValueCount>, byValue: bool, limit: Option<nat>)
    requires multiset(a) == multiset(b) && DistinctValues(a)
    ensures OrderValueCounts(a, byValue, limit) == OrderValueCounts(b, byValue, limit)
  {
    var cmp := CompareCounts(byValue);
    var ok := (x: ValueCount) => true;
    CountsPreorder(byValue, ok);
    SortSorts(cmp, ok, a);
    SortSorts(cmp, ok, b);
    var sa, sb := Sort(cmp, a), Sort(cmp, b);
    DistinctPermuted(a, sa);
    assert |multiset(sa)| == |multiset(sb)|;
    forall i | 0 <= i < |sa| ensures sa[i] == sb[i] {
      SamePlace(sa, sb, byValue, ok, i);
    }
    assert sa == sb;
  }

  lemma CountsPreorder(byValue: bool, ok: ValueCount -> bool)
    ensures Preorder(CompareCounts(byValue), ok)
  {
    var cmp := CompareCounts(byValue);
    forall a, b ensures cmp(a, b) == -cmp(b, a) {
      CompareValueTotal(a.value, b.value, Null);
    }
    forall a, b, c | cmp(a, b) <= 0 && cmp(b, c) <= 0 ensures cmp(a, c) <= 0 {
      CompareValueTotal(a.value, b.value, c.value);
    }
  }
}
