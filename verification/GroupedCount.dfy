/** Grouped counts pushed into SQL: the decoded groups are the evaluator's. */
module GroupedCount {
  import opened Options
  import opened Patterns
  import opened Sorting
  import opened Query
  import opened Sql
  import opened Plans
  import opened Compiler
  import opened CompilerSoundness
  import opened Pushdown

  /**
   * A grouping statement: an empty answer; a `GROUP BY` of one column, `present` leaving its nulls out; or a `GROUP BY`
   * of the distinct (row, type, value) triples `json_each` yields for a JSON column at a path bound twice, last.
   */
  datatype Grouping =
    | NoGroups
    | ByColumn(where: Cond, params: seq<Cell>, col: Column, present: bool)
    | ByElements(where: Cond, params: seq<Cell>, name: string)

  function CountBySql(p: Plan, field: string, filter: Option<Expr>, maxParams: Option<nat>): Option<Grouping> {
    var where := if filter.Some? then Compile(p, filter.value) else Some(TRUE);
    if '.' in field || where.None? || !where.value.exact ||
      (maxParams.Some? && |where.value.params| + 2 > maxParams.value) then None
    else match ResolveField(p, field)
      case Opaque => None
      case Absent => Some(NoGroups)
      case AtScalar(c) => Some(ByColumn(where.value.cond, where.value.params, c, c.optional))
      case AtJson(name, path) =>
        Some(ByElements(where.value.cond, where.value.params + [TextCell(path), TextCell(path)], name))
  }

  /** One row of the answer; `kind` is the JSON type, where the statement selects one. */
  datatype GroupRow = GroupRow(kind: string, v: Cell, n: nat)

  ghost predicate GroupingBinds(g: Grouping) {
    match g
    case NoGroups => true
    case ByColumn(where, ps, _, _) => |ps| == Params(where)
    case ByElements(where, ps, _) => |ps| == Params(where) + 2
  }

  // ---- what the engine answers ----

  function CountCells(table: seq<DbRow>, name: string, v: Cell): nat {
    if table == [] then 0
    else CountCells(table[..|table| - 1], name, v) + if ColumnOf(table[|table| - 1], name) == v then 1 else 0
  }

  datatype Triple = Triple(rid: Cell, kind: string, v: Cell)

  /** The triples one row yields: none for an object, and of an array or a scalar only the scalars. */
  function TriplesAt(rid: Cell, each: Field, typed: Field): set<Triple> {
    if typed.Some? && typed.value.Obj? then {}
    else set e | e in Each(each) && e.Leaf? :: Triple(rid, JsonType(e), Extracted(Some(e)))
  }

  function RowTriples(db: DbRow, key: string, name: string, each: Cell, typed: Cell): set<Triple> {
    TriplesAt(ColumnOf(db, key), AtPath(ColumnOf(db, name), each), AtPath(ColumnOf(db, name), typed))
  }

  /** `SELECT DISTINCT rid, k, v`. */
  function Triples(table: seq<DbRow>, key: string, name: string, each: Cell, typed: Cell): set<Triple> {
    if table == [] then {}
    else Triples(table[..|table| - 1], key, name, each, typed) + RowTriples(table[|table| - 1], key, name, each, typed)
  }

  function Under(ts: set<Triple>, kind: string, v: Cell): set<Triple> {
    set t | t in ts && t.kind == kind && t.v == v
  }

  /** The rows a grouping answers: each group that has anything in it, with its count. */
  ghost predicate Grouped(p: Plan, g: Grouping, table: seq<DbRow>, r: GroupRow)
    requires GroupingBinds(g)
  {
    match g
    case NoGroups => false
    case ByColumn(where, ps, c, present) =>
      r.kind == "" && r.n > 0 && !(present && r.v.NullCell?) &&
        r.n == CountCells(Filter(table, WhereTrue(Some(where), ps)), c.name, r.v)
    case ByElements(where, ps, name) =>
      var kept := Filter(table, WhereTrue(Some(where), ps[..|ps| - 2]));
      r.n > 0 && r.n == |Under(Triples(kept, p.key, name, ps[|ps| - 2], ps[|ps| - 1]), r.kind, r.v)|
  }

  /** A cell read as a scalar. */
  function CellScalar(v: Cell): Scalar {
    match v
    case NumCell(n) => Num(n)
    case TextCell(s) => Text(s)
    case _ => Null
  }

  function ColumnValue(kind: Kind, v: Cell): Scalar {
    if kind == BoolKind && !v.NullCell? then Bool(v == NumCell(1.0)) else CellScalar(v)
  }

  function ElementValue(kind: string, v: Cell): Scalar {
    if kind == "true" then Bool(true) else if kind == "false" then Bool(false) else CellScalar(v)
  }

  function Decode(g: Grouping, r: GroupRow): ValueCount {
    match g
    case NoGroups => ValueCount(Null, 0)
    case ByColumn(_, _, c, _) => ValueCount(ColumnValue(c.kind, r.v), r.n)
    case ByElements(_, _, _) => ValueCount(ElementValue(r.kind, r.v), r.n)
  }

  /** The one answered row that can stand for a value. */
  function RowOf(g: Grouping, c: ValueCount): GroupRow {
    GroupRow(if g.ByElements? then JsonType(Leaf(c.value)) else "", Norm(c.value), c.count)
  }

  // ---- a scalar column ----

  predicate InColumn(c: Column, v: Scalar) {
    KindMatches(c.kind, v) || (v.Null? && !c.optional)
  }

  lemma CellOfValue(c: Column, f: Field, v: Scalar)
    requires c.kind != JsonKind && ScalarUnambiguous(c) && FitsColumn(c, f)
    ensures v in GroupsOf(f) <==> EncodeCell(c, f) == Norm(v) && InColumn(c, v)
  {
  }

  lemma ScalarGroup(p: Plan, row: Json, field: string, c: Column, v: Scalar)
    requires Fits(p, row) && ResolveField(p, field) == AtScalar(c)
    ensures v in GroupsOf(FieldOf(row, field)) <==> ColumnOf(Storing(p)(row), c.name) == Norm(v) && InColumn(c, v)
  {
    ScalarReads(p, IdOf(p, row), row, field, c);
    CellOfValue(c, FieldOf(row, field), v);
  }

  lemma {:induction false} ScalarCounts(p: Plan, rows: seq<Json>, field: string, c: Column, v: Scalar)
    requires AllFit(p, rows) && ResolveField(p, field) == AtScalar(c)
    ensures CountOf(rows, field, v) ==
            if InColumn(c, v) then CountCells(Mapped(rows, Storing(p)), c.name, Norm(v)) else 0
  {
    if rows != [] {
      var init, last := rows[..|rows| - 1], rows[|rows| - 1];
      assert Mapped(rows, Storing(p))[..|rows| - 1] == Mapped(init, Storing(p));
      ScalarCounts(p, init, field, c, v);
      ScalarGroup(p, last, field, c, v);
    }
  }

  lemma ValueOfCell(c: Column, f: Field)
    requires c.kind != JsonKind && ScalarUnambiguous(c) && FitsColumn(c, f)
    requires !(c.optional && EncodeCell(c, f).NullCell?)
    ensures var x := ColumnValue(c.kind, EncodeCell(c, f)); Norm(x) == EncodeCell(c, f) && InColumn(c, x)
  {
  }

  /** A scalar column's cells are its values' cells and nothing else. */
  lemma {:induction false} CellsAreValues(p: Plan, rows: seq<Json>, field: string, c: Column, v: Cell)
    requires AllFit(p, rows) && ResolveField(p, field) == AtScalar(c)
    requires CountCells(Mapped(rows, Storing(p)), c.name, v) > 0 && !(c.optional && v.NullCell?)
    ensures Norm(ColumnValue(c.kind, v)) == v && InColumn(c, ColumnValue(c.kind, v))
  {
    var init, last := rows[..|rows| - 1], rows[|rows| - 1];
    assert Mapped(rows, Storing(p))[..|rows| - 1] == Mapped(init, Storing(p));
    if ColumnOf(Storing(p)(last), c.name) == v {
      ScalarReads(p, IdOf(p, last), last, field, c);
      ValueOfCell(c, FieldOf(last, field));
    } else {
      CellsAreValues(p, init, field, c, v);
    }
  }

  // ---- a JSON column ----

  lemma LeafByTypeAndValue(e: Json, v: Scalar)
    requires e.Leaf? && JsonType(e) == JsonType(Leaf(v)) && Extracted(Some(e)) == Norm(v)
    ensures e == Leaf(v)
  {
  }

  /** `json_each` yields the values a field is counted under, under their type and value. */
  lemma FieldTriples(rid: Cell, f: Field, v: Scalar)
    ensures Under(TriplesAt(rid, f, f), JsonType(Leaf(v)), Norm(v)) ==
            if v in GroupsOf(f) then {Triple(rid, JsonType(Leaf(v)), Norm(v))} else {}
  {
    var got := Under(TriplesAt(rid, f, f), JsonType(Leaf(v)), Norm(v));
    var t := Triple(rid, JsonType(Leaf(v)), Norm(v));
    forall u | u in got ensures u == t && v in GroupsOf(f) {
      var e :| e in Each(f) && e.Leaf? && u == Triple(rid, JsonType(e), Extracted(Some(e)));
      LeafByTypeAndValue(e, v);
    }
    if v in GroupsOf(f) {
      assert Leaf(v) in Each(f);
      assert t in got;
    }
  }

  /** The field a grouped path reads, with nothing lost to a `length`: it has no dot. */
  lemma PathReads(p: Plan, row: Json, field: string, name: string, path: string)
    requires Fits(p, row) && '.' !in field && ResolveField(p, field) == AtJson(name, path)
    ensures AtPath(ColumnOf(Storing(p)(row), name), TextCell(path)) == FieldOf(row, field)
  {
    JsonReads(p, IdOf(p, row), row, field, name, path);
    UndottedIsWhole(field);
    ReadUndotted(row, field);
  }

  lemma ElementGroup(p: Plan, row: Json, field: string, name: string, path: string, v: Scalar)
    requires Fits(p, row) && '.' !in field && ResolveField(p, field) == AtJson(name, path)
    ensures var triples := RowTriples(Storing(p)(row), p.key, name, TextCell(path), TextCell(path));
            Under(triples, JsonType(Leaf(v)), Norm(v)) ==
            if v in GroupsOf(FieldOf(row, field))
            then {Triple(ColumnOf(Storing(p)(row), p.key), JsonType(Leaf(v)), Norm(v))} else {}
  {
    PathReads(p, row, field, name, path);
    FieldTriples(ColumnOf(Storing(p)(row), p.key), FieldOf(row, field), v);
  }

  /** The rows are told apart by their key. */
  ghost predicate DistinctIds(p: Plan, rows: seq<Json>) {
    forall i, j :: 0 <= i < j < |rows| ==> IdOf(p, rows[i]) != IdOf(p, rows[j])
  }

  ghost predicate DistinctKeys(table: seq<DbRow>, key: string) {
    forall i, j :: 0 <= i < j < |table| ==> ColumnOf(table[i], key) != ColumnOf(table[j], key)
  }

  lemma IdsAreKeys(p: Plan, rows: seq<Json>)
    requires AllFit(p, rows) && DistinctIds(p, rows)
    ensures DistinctKeys(Mapped(rows, Storing(p)), p.key)
  {
    var table := Mapped(rows, Storing(p));
    forall i | 0 <= i < |rows| ensures ColumnOf(table[i], p.key) == TextCell(IdOf(p, rows[i])) {
      assert Fits(p, rows[i]);
      RowCodec.KeyCell(p, IdOf(p, rows[i]), rows[i]);
    }
  }

  lemma {:induction false} TripleOwners(table: seq<DbRow>, key: string, name: string, path: Cell, t: Triple)
    requires t in Triples(table, key, name, path, path)
    ensures exists i :: 0 <= i < |table| && t.rid == ColumnOf(table[i], key)
  {
    var n := |table| - 1;
    if t in Triples(table[..n], key, name, path, path) {
      TripleOwners(table[..n], key, name, path, t);
      var i :| 0 <= i < n && t.rid == ColumnOf(table[..n][i], key);
      assert table[i] == table[..n][i];
    } else {
      assert t.rid == ColumnOf(table[n], key);
    }
  }

  lemma UnderUnion(a: set<Triple>, b: set<Triple>, kind: string, v: Cell)
    requires forall x, y :: x in a && y in b ==> x.rid != y.rid
    ensures |Under(a + b, kind, v)| == |Under(a, kind, v)| + |Under(b, kind, v)|
  {
    assert Under(a + b, kind, v) == Under(a, kind, v) + Under(b, kind, v);
    assert Under(a, kind, v) !! Under(b, kind, v);
  }

  /** One row's triples share no row id with those of the rows before it. */
  lemma LastIsApart(table: seq<DbRow>, key: string, name: string, path: Cell, x: Triple, y: Triple)
    requires DistinctKeys(table, key) && table != []
    requires x in Triples(table[..|table| - 1], key, name, path, path)
    requires y in RowTriples(table[|table| - 1], key, name, path, path)
    ensures x.rid != y.rid
  {
    var init := table[..|table| - 1];
    TripleOwners(init, key, name, path, x);
    var i :| 0 <= i < |init| && x.rid == ColumnOf(init[i], key);
    assert init[i] == table[i];
  }

  /** One more row adds its triples' count. */
  lemma TriplesStep(table: seq<DbRow>, key: string, name: string, path: Cell, kind: string, v: Cell)
    requires DistinctKeys(table, key) && table != []
    ensures |Under(Triples(table, key, name, path, path), kind, v)| ==
            |Under(Triples(table[..|table| - 1], key, name, path, path), kind, v)| +
            |Under(RowTriples(table[|table| - 1], key, name, path, path), kind, v)|
  {
    var before := Triples(table[..|table| - 1], key, name, path, path);
    var here := RowTriples(table[|table| - 1], key, name, path, path);
    forall x, y | x in before && y in here ensures x.rid != y.rid {
      LastIsApart(table, key, name, path, x, y);
    }
    UnderUnion(before, here, kind, v);
  }

  lemma {:induction false} ElementCounts(p: Plan, rows: seq<Json>, field: string, name: string, path: string, v: Scalar)
    requires AllFit(p, rows) && DistinctIds(p, rows) && '.' !in field && ResolveField(p, field) == AtJson(name, path)
    ensures |Under(Triples(Mapped(rows, Storing(p)), p.key, name, TextCell(path), TextCell(path)), JsonType(Leaf(v)),
                   Norm(v))|
            == CountOf(rows, field, v)
  {
    if rows == [] {
      assert Under({}, JsonType(Leaf(v)), Norm(v)) == {};
    } else {
      var init, last := rows[..|rows| - 1], rows[|rows| - 1];
      assert Mapped(rows, Storing(p))[..|rows| - 1] == Mapped(init, Storing(p));
      ElementCounts(p, init, field, name, path, v);
      ElementGroup(p, last, field, name, path, v);
      IdsAreKeys(p, rows);
      TriplesStep(Mapped(rows, Storing(p)), p.key, name, TextCell(path), JsonType(Leaf(v)), Norm(v));
    }
  }

  lemma TripleIsScalar(rid: Cell, each: Field, typed: Field, t: Triple)
    requires t in TriplesAt(rid, each, typed)
    ensures t.kind == JsonType(Leaf(ElementValue(t.kind, t.v))) && t.v == Norm(ElementValue(t.kind, t.v))
  {
    var e :| e in Each(each) && e.Leaf? && t == Triple(rid, JsonType(e), Extracted(Some(e)));
  }

  /** Every group is of a scalar, named by its type and value. */
  lemma {:induction false} TriplesAreScalars(table: seq<DbRow>, key: string, name: string, path: Cell, t: Triple)
    requires t in Triples(table, key, name, path, path)
    ensures t.kind == JsonType(Leaf(ElementValue(t.kind, t.v))) && t.v == Norm(ElementValue(t.kind, t.v))
  {
    var init, last := table[..|table| - 1], table[|table| - 1];
    if t in Triples(init, key, name, path, path) {
      TriplesAreScalars(init, key, name, path, t);
    } else {
      TripleIsScalar(ColumnOf(last, key), AtPath(ColumnOf(last, name), path), AtPath(ColumnOf(last, name), path), t);
    }
  }

  // ---- the groups agree ----

  lemma {:induction false} AbsentCounts(p: Plan, rows: seq<Json>, field: string, v: Scalar)
    requires AllFit(p, rows) && ResolveField(p, field) == Absent
    ensures CountOf(rows, field, v) == 0
  {
    if rows != [] {
      AbsentCounts(p, rows[..|rows| - 1], field, v);
      assert Fits(p, rows[|rows| - 1]);
      AbsentReadsNothing(p, rows[|rows| - 1], field);
    }
  }

  lemma {:induction false} FilterDistinct(p: Plan, rows: seq<Json>, q: Json -> bool)
    requires DistinctIds(p, rows)
    ensures DistinctIds(p, Filter(rows, q))
  {
    if rows != [] {
      FilterDistinct(p, rows[1..], q);
      var rest := Filter(rows[1..], q);
      FilterMembers(rows[1..], q);
      forall i | 0 <= i < |rest| ensures IdOf(p, rest[i]) != IdOf(p, rows[0]) {
        assert rest[i] in rest;
        var j :| 0 <= j < |rows[1..]| && rows[1..][j] == rest[i];
        assert rows[j + 1] == rest[i];
      }
    }
  }

  /** What an exact WHERE keeps of the stored table is the stored rows the evaluator passes. */
  lemma KeptRows(fold: CaseFold, p: Plan, rows: seq<Json>, filter: Option<Expr>, c: Compiled)
    requires AllFit(p, rows) && c.exact && Some(c) == if filter.Some? then Compile(p, filter.value) else Some(TRUE)
    ensures |c.params| == Params(c.cond)
    ensures Filter(Mapped(rows, Storing(p)), WhereTrue(Some(c.cond), c.params)) ==
              Mapped(Filter(rows, Passes(fold, filter)), Storing(p))
  {
    if filter.Some? {
      CompileBinds(p, filter.value);
      WhereKeeps(fold, p, rows, filter, c, Some(c.cond), c.params);
    } else {
      WhereKeeps(fold, p, rows, filter, c, None, []);
      FilterSame(Mapped(rows, Storing(p)), WhereTrue(Some(c.cond), c.params), WhereTrue(None, []));
    }
  }

  /** The answered rows stand, one for one, for the values some row is counted under, with how many rows are. */
  ghost predicate Agrees(p: Plan, g: Grouping, table: seq<DbRow>, kept: seq<Json>, field: string)
    requires GroupingBinds(g)
  {
    && (forall r :: Grouped(p, g, table, r) ==> StandsFor(g, kept, field, r))
    && (forall v :: CountOf(kept, field, v) > 0 ==> Answered(p, g, table, ValueCount(v, CountOf(kept, field, v))))
  }

  ghost predicate StandsFor(g: Grouping, kept: seq<Json>, field: string, r: GroupRow) {
    Decode(g, r).count == CountOf(kept, field, Decode(g, r).value) > 0 && r == RowOf(g, Decode(g, r))
  }

  ghost predicate Answered(p: Plan, g: Grouping, table: seq<DbRow>, c: ValueCount)
    requires GroupingBinds(g)
  {
    Grouped(p, g, table, RowOf(g, c)) && Decode(g, RowOf(g, c)) == c
  }

  lemma ColumnRow(p: Plan, g: Grouping, table: seq<DbRow>, kept: seq<Json>, field: string, r: GroupRow)
    requires AllFit(p, kept) && g.ByColumn? && ResolveField(p, field) == AtScalar(g.col) && g.present == g.col.optional
    requires GroupingBinds(g) && Filter(table, WhereTrue(Some(g.where), g.params)) == Mapped(kept, Storing(p))
    requires Grouped(p, g, table, r)
    ensures StandsFor(g, kept, field, r)
  {
    CellsAreValues(p, kept, field, g.col, r.v);
    ScalarCounts(p, kept, field, g.col, ColumnValue(g.col.kind, r.v));
  }

  lemma ColumnValueOf(kind: Kind, v: Scalar)
    requires KindMatches(kind, v) || v.Null?
    ensures ColumnValue(kind, Norm(v)) == v
  {
  }

  lemma ColumnAnswers(p: Plan, g: Grouping, table: seq<DbRow>, kept: seq<Json>, field: string, v: Scalar)
    requires AllFit(p, kept) && g.ByColumn? && ResolveField(p, field) == AtScalar(g.col) && g.present == g.col.optional
    requires GroupingBinds(g) && Filter(table, WhereTrue(Some(g.where), g.params)) == Mapped(kept, Storing(p))
    requires CountOf(kept, field, v) > 0
    ensures Answered(p, g, table, ValueCount(v, CountOf(kept, field, v)))
  {
    var c := ValueCount(v, CountOf(kept, field, v));
    ScalarCounts(p, kept, field, g.col, v);
    ColumnValueOf(g.col.kind, v);
    assert Decode(g, RowOf(g, c)) == c;
  }

  lemma ElementRow(p: Plan, g: Grouping, table: seq<DbRow>, kept: seq<Json>, field: string, path: string, r: GroupRow)
    requires AllFit(p, kept) && DistinctIds(p, kept) && '.' !in field && g.ByElements?
    requires ResolveField(p, field) == AtJson(g.name, path)
    requires GroupingBinds(g) && g.params[|g.params| - 2] == TextCell(path)
    requires g.params[|g.params| - 1] == TextCell(path)
    requires Filter(table, WhereTrue(Some(g.where), g.params[..|g.params| - 2])) == Mapped(kept, Storing(p))
    requires Grouped(p, g, table, r)
    ensures StandsFor(g, kept, field, r)
  {
    var ts := Triples(Mapped(kept, Storing(p)), p.key, g.name, TextCell(path), TextCell(path));
    var t :| t in Under(ts, r.kind, r.v);
    TriplesAreScalars(Mapped(kept, Storing(p)), p.key, g.name, TextCell(path), t);
    ElementCounts(p, kept, field, g.name, path, ElementValue(r.kind, r.v));
  }

  lemma ElementValueOf(v: Scalar)
    ensures ElementValue(JsonType(Leaf(v)), Norm(v)) == v
  {
  }

  lemma ElementAnswers(p: Plan, g: Grouping, table: seq<DbRow>, kept: seq<Json>, field: string, path: string, v: Scalar)
    requires AllFit(p, kept) && DistinctIds(p, kept) && '.' !in field && g.ByElements?
    requires ResolveField(p, field) == AtJson(g.name, path)
    requires GroupingBinds(g) && g.params[|g.params| - 2] == TextCell(path)
    requires g.params[|g.params| - 1] == TextCell(path)
    requires Filter(table, WhereTrue(Some(g.where), g.params[..|g.params| - 2])) == Mapped(kept, Storing(p))
    requires CountOf(kept, field, v) > 0
    ensures Answered(p, g, table, ValueCount(v, CountOf(kept, field, v)))
  {
    ElementCounts(p, kept, field, g.name, path, v);
    ElementValueOf(v);
  }

  /**
   * Grouped pushdown. Whenever the statement exists, its groups, decoded, are the evaluator's grouped counts of the
   * rows the filter passes: each value some row is counted under once, with how many are, and nothing else.
   */
  lemma GroupedPushdown(fold: CaseFold, p: Plan, rows: seq<Json>, field: string, filter: Option<Expr>,
                        maxParams: Option<nat>)
    requires AllFit(p, rows) && DistinctIds(p, rows) && CountBySql(p, field, filter, maxParams).Some?
    ensures GroupingBinds(CountBySql(p, field, filter, maxParams).value)
    ensures Agrees(p, CountBySql(p, field, filter, maxParams).value, Mapped(rows, Storing(p)),
                   Filter(rows, Passes(fold, filter)), field)
  {
    var g := CountBySql(p, field, filter, maxParams).value;
    var c := if filter.Some? then Compile(p, filter.value).value else TRUE;
    var kept, table := Filter(rows, Passes(fold, filter)), Mapped(rows, Storing(p));
    KeptRows(fold, p, rows, filter, c);
    FilterFits(p, rows, Passes(fold, filter));
    FilterDistinct(p, rows, Passes(fold, filter));
    match ResolveField(p, field)
    case Absent =>
      forall v ensures CountOf(kept, field, v) == 0 {
        AbsentCounts(p, kept, field, v);
      }
    case AtScalar(_) =>
      forall r | Grouped(p, g, table, r) ensures StandsFor(g, kept, field, r) {
        ColumnRow(p, g, table, kept, field, r);
      }
      forall v | CountOf(kept, field, v) > 0 ensures Answered(p, g, table, ValueCount(v, CountOf(kept, field, v))) {
        ColumnAnswers(p, g, table, kept, field, v);
      }
    case AtJson(_, path) =>
      assert g.params[..|g.params| - 2] == c.params;
      forall r | Grouped(p, g, table, r) ensures StandsFor(g, kept, field, r) {
        ElementRow(p, g, table, kept, field, path, r);
      }
      forall v | CountOf(kept, field, v) > 0 ensures Answered(p, g, table, ValueCount(v, CountOf(kept, field, v))) {
        ElementAnswers(p, g, table, kept, field, path, v);
      }
  }

  lemma {:induction false} CountIsFilter(rows: seq<Json>, field: string, v: Scalar, has: Json -> bool)
    requires forall r :: has(r) == (v in GroupsOf(FieldOf(r, field)))
    ensures CountOf(rows, field, v) == |Filter(rows, has)|
  {
    if rows != [] {
      var init, last := rows[..|rows| - 1], rows[|rows| - 1];
      CountIsFilter(init, field, v, has);
      FilterConcat(init, [last], has);
      assert rows == init + [last] && Filter([last], has) == if has(last) then [last] else [];
    }
  }

  /** Counting a snapshot instead: in whatever order its rows come, the counts are the same. */
  lemma CountsPermute(a: seq<Json>, b: seq<Json>, field: string, v: Scalar)
    requires multiset(a) == multiset(b)
    ensures CountOf(a, field, v) == CountOf(b, field, v)
  {
    var has: Json -> bool := r => v in GroupsOf(FieldOf(r, field));
    CountIsFilter(a, field, v, has);
    CountIsFilter(b, field, v, has);
    FilterOfPermutation(a, b, has);
  }
}
