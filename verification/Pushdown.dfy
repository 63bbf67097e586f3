/** Snapshots and counts pushed into SQL: what the statement answers is what the evaluator would. */
module Pushdown {
  import opened Options
  import opened TextOrder
  import opened Patterns
  import opened Sorting
  import opened Query
  import opened Sql
  import opened Plans
  import opened RowCodec
  import opened Compiler
  import opened CompilerSoundness

  // ---- the statements ----

  /** One ORDER BY term: ascending with nulls last, or descending with nulls first. */
  datatype Term = Term(name: string, desc: bool)

  /** A select over one table; `windowed` adds LIMIT and OFFSET, bound by the last two parameters in that order. */
  datatype Select = Select(where: Option<Cond>, order: seq<Term>, windowed: bool)

  datatype Statement = Statement(sql: Select, params: seq<Cell>, exact: bool)

  function CompileTerm(p: Plan, o: OrderBy): Option<Term> {
    var ref := ResolveField(p, o.field);
    if !ref.AtScalar? || ref.col.kind == BoolKind then None else Some(Term(ref.col.name, o.desc))
  }

  function CompileOrder(p: Plan, orderBy: seq<OrderBy>): Option<seq<Term>> {
    if orderBy == [] then Some([])
    else
      var first, rest := CompileTerm(p, orderBy[0]), CompileOrder(p, orderBy[1..]);
      if first.None? || rest.None? then None else Some([first.value] + rest.value)
  }

  /** The loop over the order's fields. */
  method CompileOrderBy(p: Plan, orderBy: seq<OrderBy>) returns (r: Option<seq<Term>>)
    ensures r == CompileOrder(p, orderBy)
  {
    var parts: seq<Term> := [];
    var i := 0;
    assert orderBy[0..] == orderBy && forall rest: seq<Term> :: parts + rest == rest;
    while i < |orderBy|
      invariant 0 <= i <= |orderBy|
      invariant var left := CompileOrder(p, orderBy[i..]);
                CompileOrder(p, orderBy) == if left.Some? then Some(parts + left.value) else None
    {
      var o := orderBy[i];
      var ref := ResolveField(p, o.field);
      ghost var rest := CompileOrder(p, orderBy[i + 1..]);
      assert orderBy[i..][1..] == orderBy[i + 1..];
      if rest.Some? && CompileTerm(p, o).Some? {
        assert parts + ([CompileTerm(p, o).value] + rest.value) == parts + [CompileTerm(p, o).value] + rest.value;
      }
      if !ref.AtScalar? || ref.col.kind == BoolKind {
        return None;
      }
      parts := parts + [Term(ref.col.name, o.desc)];
      i := i + 1;
    }
    assert orderBy[i..] == [] && parts + [] == parts;
    return Some(parts);
  }

  /** A filter the statement can use: compiled, and within the engine's parameter limit with LIMIT and OFFSET. */
  function UsableWhere(p: Plan, filter: Option<Expr>, maxParams: Option<nat>): Option<Compiled> {
    var where := if filter.Some? then Compile(p, filter.value) else Some(TRUE);
    if where.Some? && maxParams.Some? && |where.value.params| + 2 > maxParams.value then None else where
  }

  function SnapshotSql(p: Plan, q: Query, maxParams: Option<nat>): Statement {
    var where := UsableWhere(p, q.filter, maxParams);
    var cond := if q.filter.Some? && where.Some? then Some(where.value.cond) else None;
    var params := if q.filter.Some? && where.Some? then where.value.params else [];
    var order := CompileOrder(p, q.orderBy);
    if where.None? || !where.value.exact || order.None? then Statement(Select(cond, [], false), params, false)
    else if q.limit.None? && q.offset.None? then Statement(Select(cond, order.value, false), params, true)
    else
      var limit := NumCell(if q.limit.Some? then q.limit.value as real else -1.0);
      var offset := NumCell(if q.offset.Some? then q.offset.value as real else 0.0);
      Statement(Select(cond, order.value, true), params + [limit, offset], true)
  }

  /** The counting statement, or `None` when SQL cannot answer exactly. */
  function CountSql(p: Plan, filter: Option<Expr>, maxParams: Option<nat>): Option<Statement> {
    if filter.None? then Some(Statement(Select(None, [], false), [], true))
    else
      var where := Compile(p, filter.value);
      if where.None? || !where.value.exact || (maxParams.Some? && |where.value.params| > maxParams.value) then None
      else Some(Statement(Select(Some(where.value.cond), [], false), where.value.params, true))
  }

  // ---- what the engine may answer ----

  function WhereTrue(where: Option<Cond>, ps: seq<Cell>): DbRow -> bool
    requires |ps| == if where.Some? then Params(where.value) else 0
  {
    db => where.None? || EvalSql(where.value, ps, db).True?
  }

  function CompareTerm(desc: bool, a: Cell, b: Cell): int {
    if a.NullCell? || b.NullCell? then
      if a.NullCell? && b.NullCell? then 0
      else if a.NullCell? then (if desc then -1 else 1)
      else if desc then 1 else -1
    else
      var c := CompareCells(a, b);
      if c.None? then 0 else if desc then -c.value else c.value
  }

  function CompareStored(order: seq<Term>, a: DbRow, b: DbRow): int {
    if order == [] then 0
    else
      var c := CompareTerm(order[0].desc, ColumnOf(a, order[0].name), ColumnOf(b, order[0].name));
      if c != 0 then c else CompareStored(order[1..], a, b)
  }

  function StoredOrder(order: seq<Term>): (DbRow, DbRow) -> int {
    (a, b) => CompareStored(order, a, b)
  }

  /** The engine's steps through its rows: it passes over OFFSET, then returns LIMIT; a negative one never runs out. */
  function Stepped<T>(s: seq<T>, limit: int, offset: int): seq<T> {
    if s == [] || limit == 0 then []
    else if offset > 0 then Stepped(s[1..], limit, offset - 1)
    else [s[0]] + Stepped(s[1..], if limit > 0 then limit - 1 else limit, offset)
  }

  /** LIMIT and OFFSET as bound. */
  function SqlWindow<T>(s: seq<T>, limit: Cell, offset: Cell): seq<T> {
    Stepped(s, if limit.NumCell? then limit.n.Floor else -1, if offset.NumCell? then offset.n.Floor else 0)
  }

  ghost predicate Binds(st: Statement) {
    |st.params| == (if st.sql.where.Some? then Params(st.sql.where.value) else 0) + if st.sql.windowed then 2 else 0
  }

  function WhereParams(st: Statement): seq<Cell>
    requires Binds(st)
  {
    if st.sql.windowed then st.params[..|st.params| - 2] else st.params
  }

  /** `all` is the matching rows in an order the ORDER BY allows; ties, and everything without one, come as they may. */
  ghost predicate Answer(st: Statement, table: seq<DbRow>, all: seq<DbRow>, out: seq<DbRow>)
    requires Binds(st)
  {
    && multiset(all) == multiset(Filter(table, WhereTrue(st.sql.where, WhereParams(st))))
    && Sorted(StoredOrder(st.sql.order), all)
    && out == if st.sql.windowed then SqlWindow(all, st.params[|st.params| - 2], st.params[|st.params| - 1]) else all
  }

  // ---- the stored table ----

  function IdOf(p: Plan, row: Json): string {
    var key := Own(row, p.key);
    if key.Some? && key.value.Leaf? && key.value.v.Text? then key.value.v.s else ""
  }

  function Storing(p: Plan): Json -> DbRow {
    row => StoredRow(p, IdOf(p, row), row)
  }

  function Reading(p: Plan): DbRow -> Json {
    db => FromRow(p, db)
  }

  /** A row the table can hold, under its own key. */
  ghost predicate Fits(p: Plan, row: Json) {
    Stores(p, IdOf(p, row), row)
  }

  ghost predicate AllFit(p: Plan, rows: seq<Json>) {
    forall i :: 0 <= i < |rows| ==> Fits(p, rows[i])
  }

  lemma ReadBack(p: Plan, rows: seq<Json>)
    requires AllFit(p, rows)
    ensures Mapped(Mapped(rows, Storing(p)), Reading(p)) == rows
  {
    forall i | 0 <= i < |rows| ensures Reading(p)(Storing(p)(rows[i])) == rows[i] {
      assert Fits(p, rows[i]);
      RowRoundTrip(p, IdOf(p, rows[i]), rows[i]);
    }
    MappedBack(rows, Storing(p), Reading(p));
  }

  /** The compiled filter of a statement: what it keeps of the stored rows, said of the rows themselves. */
  lemma WhereKeeps(fold: CaseFold, p: Plan, rows: seq<Json>, filter: Option<Expr>, c: Compiled, where: Option<Cond>,
                   ps: seq<Cell>)
    requires AllFit(p, rows) && c.exact
    requires filter.Some? ==>
              Compile(p, filter.value) == Some(c) && where == Some(c.cond) && ps == c.params && |ps| == Params(c.cond)
    requires filter.None? ==> where == None && ps == []
    ensures Filter(Mapped(rows, Storing(p)), WhereTrue(where, ps)) ==
              Mapped(Filter(rows, Passes(fold, filter)), Storing(p))
  {
    forall i | 0 <= i < |rows| ensures Passes(fold, filter)(rows[i]) == WhereTrue(where, ps)(Storing(p)(rows[i])) {
      assert Fits(p, rows[i]);
      if filter.Some? {
        CompileMeans(fold, p, IdOf(p, rows[i]), rows[i], filter.value);
      }
    }
    FilterMapped(rows, Storing(p), WhereTrue(where, ps), Passes(fold, filter));
  }

  // ---- order ----

  lemma TermAgrees(p: Plan, o: OrderBy, a: Json, b: Json)
    requires Fits(p, a) && Fits(p, b) && CompileTerm(p, o).Some?
    ensures var t := CompileTerm(p, o).value; var c := CompareForSort(FieldOf(a, o.field), FieldOf(b, o.field));
            CompareTerm(t.desc, ColumnOf(Storing(p)(a), t.name), ColumnOf(Storing(p)(b), t.name)) ==
            if o.desc then -c else c
  {
    var col := ResolveField(p, o.field).col;
    Resolved(p, IdOf(p, a), a, o.field);
    Resolved(p, IdOf(p, b), b, o.field);
    CellsCompare(col, FieldOf(a, o.field), FieldOf(b, o.field));
  }

  /** Two cells of one column compare as their fields do. */
  lemma CellsCompare(c: Column, f: Field, g: Field)
    requires c.kind == RealKind || c.kind == TextKind
    requires FitsColumn(c, f) && FitsColumn(c, g)
    ensures EncodeCell(c, f).NullCell? <==> (f.None? || f == Some(Leaf(Null)))
    ensures EncodeCell(c, g).NullCell? <==> (g.None? || g == Some(Leaf(Null)))
    ensures !EncodeCell(c, f).NullCell? && !EncodeCell(c, g).NullCell? ==>
              g.value.Leaf? && CompareCells(EncodeCell(c, f), EncodeCell(c, g)) == CompareScalar(f, g.value.v)
              && CompareScalar(f, g.value.v).Some?
  {
    if c.kind == TextKind && f.Some? && f.value.Leaf? && f.value.v.Text? && g.Some? && g.value.Leaf? &&
      g.value.v.Text? {
      OrdersAgree(f.value.v.s, g.value.v.s);
    }
  }

  lemma {:induction false} OrderAgrees(p: Plan, orderBy: seq<OrderBy>, a: Json, b: Json)
    requires Fits(p, a) && Fits(p, b) && CompileOrder(p, orderBy).Some?
    ensures CompareStored(CompileOrder(p, orderBy).value, Storing(p)(a), Storing(p)(b)) == CompareRows(orderBy, a, b)
  {
    if orderBy != [] {
      TermAgrees(p, orderBy[0], a, b);
      OrderAgrees(p, orderBy[1..], a, b);
      assert CompileOrder(p, orderBy).value[1..] == CompileOrder(p, orderBy[1..]).value;
    }
  }

  /** On one typed column, the evaluator's sort comparison is a total preorder. */
  lemma SortFieldPreorder(c: Column, f: Field, g: Field, h: Field)
    requires c.kind == RealKind || c.kind == TextKind
    requires FitsColumn(c, f) && FitsColumn(c, g) && FitsColumn(c, h)
    ensures CompareForSort(f, g) == -CompareForSort(g, f)
    ensures CompareForSort(f, g) <= 0 && CompareForSort(g, h) <= 0 ==> CompareForSort(f, h) <= 0
  {
    if c.kind == TextKind {
      TextTotal(TextOf(f), TextOf(g), TextOf(h));
    }
  }

  function TextOf(f: Field): string {
    if f.Some? && f.value.Leaf? && f.value.v.Text? then f.value.v.s else ""
  }

  lemma SortTermPreorder(p: Plan, o: OrderBy, a: Json, b: Json, c: Json)
    requires Fits(p, a) && Fits(p, b) && Fits(p, c) && CompileTerm(p, o).Some?
    ensures CompareForSort(FieldOf(a, o.field), FieldOf(b, o.field)) ==
              -CompareForSort(FieldOf(b, o.field), FieldOf(a, o.field))
    ensures CompareForSort(FieldOf(a, o.field), FieldOf(b, o.field)) <= 0 &&
            CompareForSort(FieldOf(b, o.field), FieldOf(c, o.field)) <= 0 ==>
              CompareForSort(FieldOf(a, o.field), FieldOf(c, o.field)) <= 0
  {
    Resolved(p, IdOf(p, a), a, o.field);
    Resolved(p, IdOf(p, b), b, o.field);
    Resolved(p, IdOf(p, c), c, o.field);
    SortFieldPreorder(ResolveField(p, o.field).col, FieldOf(a, o.field), FieldOf(b, o.field), FieldOf(c, o.field));
  }

  lemma {:induction false} RowsAntisymmetric(p: Plan, orderBy: seq<OrderBy>, a: Json, b: Json)
    requires Fits(p, a) && Fits(p, b) && CompileOrder(p, orderBy).Some?
    ensures CompareRows(orderBy, a, b) == -CompareRows(orderBy, b, a)
  {
    if orderBy != [] {
      SortTermPreorder(p, orderBy[0], a, b, a);
      RowsAntisymmetric(p, orderBy[1..], a, b);
    }
  }

  lemma {:induction false} RowsTransitive(p: Plan, orderBy: seq<OrderBy>, a: Json, b: Json, c: Json)
    requires Fits(p, a) && Fits(p, b) && Fits(p, c) && CompileOrder(p, orderBy).Some?
    requires CompareRows(orderBy, a, b) <= 0 && CompareRows(orderBy, b, c) <= 0
    ensures CompareRows(orderBy, a, c) <= 0
  {
    if orderBy != [] {
      var o := orderBy[0];
      SortTermPreorder(p, o, a, b, c);
      SortTermPreorder(p, o, b, c, a);
      SortTermPreorder(p, o, c, a, b);
      SortTermPreorder(p, o, c, b, a);
      SortTermPreorder(p, o, b, a, c);
      SortTermPreorder(p, o, a, c, b);
      var ab := CompareForSort(FieldOf(a, o.field), FieldOf(b, o.field));
      var bc := CompareForSort(FieldOf(b, o.field), FieldOf(c, o.field));
      if ab == 0 && bc == 0 {
        RowsTransitive(p, orderBy[1..], a, b, c);
      }
    }
  }

  lemma OrderPreorder(p: Plan, orderBy: seq<OrderBy>, ok: Json -> bool)
    requires CompileOrder(p, orderBy).Some? && forall r :: ok(r) ==> Fits(p, r)
    ensures Preorder(RowOrder(orderBy), ok)
  {
    var cmp := RowOrder(orderBy);
    forall a, b | ok(a) && ok(b) ensures cmp(a, b) == -cmp(b, a) {
      RowsAntisymmetric(p, orderBy, a, b);
    }
    forall a, b, c | ok(a) && ok(b) && ok(c) && cmp(a, b) <= 0 && cmp(b, c) <= 0 ensures cmp(a, c) <= 0 {
      RowsTransitive(p, orderBy, a, b, c);
    }
  }

  // ---- the answers agree ----

  lemma FilterFits(p: Plan, rows: seq<Json>, q: Json -> bool)
    requires AllFit(p, rows)
    ensures AllFit(p, Filter(rows, q))
  {
    FilterMembers(rows, q);
    var kept := Filter(rows, q);
    forall i | 0 <= i < |kept| ensures Fits(p, kept[i]) {
      assert kept[i] in kept;
      var j :| 0 <= j < |rows| && rows[j] == kept[i];
    }
  }

  /** Rows the engine returns are stored rows: reading one back and storing it again changes nothing. */
  lemma ReturnedRows(p: Plan, kept: seq<Json>, all: seq<DbRow>)
    requires AllFit(p, kept) && multiset(all) == multiset(Mapped(kept, Storing(p)))
    ensures multiset(Mapped(all, Reading(p))) == multiset(kept)
    ensures AllFit(p, Mapped(all, Reading(p)))
    ensures Mapped(Mapped(all, Reading(p)), Storing(p)) == all
  {
    var stored := Mapped(kept, Storing(p));
    ReadBack(p, kept);
    MappedPermutation(all, stored, Reading(p));
    forall i | 0 <= i < |all|
      ensures Fits(p, Reading(p)(all[i])) && Storing(p)(Reading(p)(all[i])) == all[i]
    {
      assert all[i] in multiset(all);
      assert all[i] in multiset(stored);
      var j :| 0 <= j < |stored| && stored[j] == all[i];
      assert Mapped(stored, Reading(p))[j] == kept[j] && Fits(p, kept[j]);
    }
    MappedBack(all, Reading(p), Storing(p));
  }

  /** What SQL's ORDER BY sorted is sorted by the evaluator's order too. */
  lemma SortedReads(p: Plan, orderBy: seq<OrderBy>, all: seq<DbRow>)
    requires CompileOrder(p, orderBy).Some? && Sorted(StoredOrder(CompileOrder(p, orderBy).value), all)
    requires AllFit(p, Mapped(all, Reading(p))) && Mapped(Mapped(all, Reading(p)), Storing(p)) == all
    ensures Sorted(RowOrder(orderBy), Mapped(all, Reading(p)))
  {
    var read := Mapped(all, Reading(p));
    forall i, j | 0 <= i < j < |read| ensures RowOrder(orderBy)(read[i], read[j]) <= 0 {
      assert Fits(p, read[i]) && Fits(p, read[j]);
      assert Storing(p)(read[i]) == all[i] && Storing(p)(read[j]) == all[j];
      OrderAgrees(p, orderBy, read[i], read[j]);
      assert StoredOrder(CompileOrder(p, orderBy).value)(all[i], all[j]) <= 0;
    }
  }

  /** Two sequences of the same length whose rows tie, place by place, under the sort keys. */
  ghost predicate SameKeys(orderBy: seq<OrderBy>, a: seq<Json>, b: seq<Json>) {
    |a| == |b| && forall i :: 0 <= i < |a| ==> CompareRows(orderBy, a[i], b[i]) == 0
  }

  lemma OrderedSameKeys(fold: CaseFold, p: Plan, rows: seq<Json>, q: Query, all: seq<DbRow>)
    requires AllFit(p, rows) && CompileOrder(p, q.orderBy).Some?
    requires multiset(all) == multiset(Mapped(Filter(rows, Passes(fold, q.filter)), Storing(p)))
    requires Sorted(StoredOrder(CompileOrder(p, q.orderBy).value), all)
    ensures SameKeys(q.orderBy, Mapped(all, Reading(p)), Ordered(fold, rows, q))
    ensures multiset(Mapped(all, Reading(p))) == multiset(Ordered(fold, rows, q))
  {
    var kept := Filter(rows, Passes(fold, q.filter));
    var read := Mapped(all, Reading(p));
    FilterFits(p, rows, Passes(fold, q.filter));
    ReturnedRows(p, kept, all);
    if q.orderBy == [] {
      assert |multiset(read)| == |multiset(kept)|;
    } else {
      SortedReads(p, q.orderBy, all);
      SortPermutes(RowOrder(q.orderBy), kept);
      SortedTie(p, q.orderBy, kept, read);
    }
  }

  lemma SortedTie(p: Plan, orderBy: seq<OrderBy>, kept: seq<Json>, read: seq<Json>)
    requires AllFit(p, kept) && AllFit(p, read) && CompileOrder(p, orderBy).Some?
    requires Sorted(RowOrder(orderBy), read) && multiset(read) == multiset(kept)
    ensures SameKeys(orderBy, read, Sort(RowOrder(orderBy), kept))
  {
    var ok: Json -> bool := r => r in kept || r in read;
    forall r | ok(r) ensures Fits(p, r) {
      if r in kept {
        var i :| 0 <= i < |kept| && kept[i] == r;
      } else {
        var i :| 0 <= i < |read| && read[i] == r;
      }
    }
    OrderPreorder(p, orderBy, ok);
    SortSorts(RowOrder(orderBy), ok, kept);
    var sorted := Sort(RowOrder(orderBy), kept);
    assert |multiset(read)| == |multiset(sorted)|;
    forall i | 0 <= i < |read| ensures CompareRows(orderBy, read[i], sorted[i]) == 0 {
      SortedAgree(RowOrder(orderBy), ok, read, sorted, i);
    }
  }

  lemma WindowKeys(orderBy: seq<OrderBy>, a: seq<Json>, b: seq<Json>, offset: nat, limit: Option<nat>)
    requires SameKeys(orderBy, a, b)
    ensures SameKeys(orderBy, Window(a, offset, limit), Window(b, offset, limit))
  {
  }

  lemma WindowPart<T>(s: seq<T>, offset: nat, limit: Option<nat>)
    ensures multiset(Window(s, offset, limit)) <= multiset(s)
  {
    var from := Min(offset, |s|);
    var to := if limit.None? then |s| else Min(offset + limit.value, |s|);
    assert s == s[..from] + s[from..to] + s[to..];
  }

  lemma WindowMapped(all: seq<DbRow>, f: DbRow -> Json, offset: nat, limit: Option<nat>)
    ensures Mapped(Window(all, offset, limit), f) == Window(Mapped(all, f), offset, limit)
  {
  }

  /** The bound LIMIT and OFFSET cut the window the query asks for. */
  lemma BoundWindow<T>(s: seq<T>, q: Query)
    ensures SqlWindow(s, NumCell(if q.limit.Some? then q.limit.value as real else -1.0),
                      NumCell(if q.offset.Some? then q.offset.value as real else 0.0))
            == Window(s, if q.offset.Some? then q.offset.value else 0, q.limit)
  {
    SteppedIsWindow(s, if q.limit.Some? then q.limit.value else -1, if q.offset.Some? then q.offset.value else 0,
                    q.limit);
  }

  lemma WindowSkips<T>(s: seq<T>, offset: nat, limit: Option<nat>)
    requires s != [] && offset > 0
    ensures Window(s, offset, limit) == Window(s[1..], offset - 1, limit)
  {
  }

  lemma WindowTakes<T>(s: seq<T>, limit: Option<nat>, rest: Option<nat>)
    requires s != [] && (limit.Some? ==> limit.value > 0)
    requires rest == if limit.Some? then Some(limit.value - 1) else None
    ensures Window(s, 0, limit) == [s[0]] + Window(s[1..], 0, rest)
  {
    assert Window(s, 0, limit)[1..] == Window(s[1..], 0, rest);
  }

  /** Stepping returns the window. */
  lemma {:induction false} SteppedIsWindow<T>(s: seq<T>, limit: int, offset: nat, asked: Option<nat>)
    requires limit == if asked.Some? then asked.value else -1
    ensures Stepped(s, limit, offset) == Window(s, offset, asked)
  {
    if s != [] && limit != 0 {
      if offset > 0 {
        WindowSkips(s, offset, asked);
        SteppedIsWindow(s[1..], limit, offset - 1, asked);
      } else {
        var rest := if asked.Some? then Some(asked.value - 1) else None;
        WindowTakes(s, asked, rest);
        SteppedIsWindow(s[1..], if limit > 0 then limit - 1 else limit, 0, rest);
      }
    }
  }

  /** A statement's last two parameters bind the window the query asks for. */
  predicate Windows(st: Statement, q: Query) {
    && |st.params| >= 2
    && st.params[|st.params| - 2] == NumCell(if q.limit.Some? then q.limit.value as real else -1.0)
    && st.params[|st.params| - 1] == NumCell(if q.offset.Some? then q.offset.value as real else 0.0)
  }

  lemma StatementParts(p: Plan, q: Query, maxParams: Option<nat>, fold: CaseFold, rows: seq<Json>, st: Statement)
    requires st == SnapshotSql(p, q, maxParams) && st.exact && AllFit(p, rows)
    ensures Binds(st) && CompileOrder(p, q.orderBy).Some? && st.sql.order == CompileOrder(p, q.orderBy).value
    ensures Filter(Mapped(rows, Storing(p)), WhereTrue(st.sql.where, WhereParams(st))) ==
            Mapped(Filter(rows, Passes(fold, q.filter)), Storing(p))
  {
    var c := UsableWhere(p, q.filter, maxParams).value;
    if q.filter.Some? {
      CompileBinds(p, q.filter.value);
      assert st.sql.windowed ==> st.params[..|st.params| - 2] == c.params;
      WhereKeeps(fold, p, rows, q.filter, c, Some(c.cond), c.params);
    } else {
      WhereKeeps(fold, p, rows, q.filter, c, None, []);
    }
  }

  lemma StatementWindow(p: Plan, q: Query, maxParams: Option<nat>, st: Statement)
    requires st == SnapshotSql(p, q, maxParams) && st.exact
    ensures st.sql.windowed <==> q.limit.Some? || q.offset.Some?
    ensures st.sql.windowed ==> Windows(st, q)
  {
  }

  /**
   * Exact pushdown. Whatever rows the engine answers an exact snapshot statement with, and in whatever order it leaves
   * ties, they are rows the filter passes, each as often as it is there at most, with the sort keys of the evaluator's
   * answer, place by place; without a window they are the same rows.
   */
  lemma SnapshotPushdown(fold: CaseFold, p: Plan, rows: seq<Json>, q: Query, maxParams: Option<nat>, all: seq<DbRow>,
                         out: seq<DbRow>)
    requires AllFit(p, rows) && SnapshotSql(p, q, maxParams).exact
    ensures Binds(SnapshotSql(p, q, maxParams))
    ensures Answer(SnapshotSql(p, q, maxParams), Mapped(rows, Storing(p)), all, out) ==>
              SameKeys(q.orderBy, Mapped(out, Reading(p)), ApplyQuery(fold, rows, q)) &&
              multiset(Mapped(out, Reading(p))) <= multiset(Filter(rows, Passes(fold, q.filter))) &&
              (q.limit.None? && q.offset.None? ==>
                multiset(Mapped(out, Reading(p))) == multiset(ApplyQuery(fold, rows, q)))
  {
    var st := SnapshotSql(p, q, maxParams);
    StatementParts(p, q, maxParams, fold, rows, st);
    if Answer(st, Mapped(rows, Storing(p)), all, out) {
      OrderedSameKeys(fold, p, rows, q, all);
      SortPermutes(RowOrder(q.orderBy), Filter(rows, Passes(fold, q.filter)));
      StatementWindow(p, q, maxParams, st);
      WindowedPushdown(fold, p, rows, q, all, out, st);
    }
  }

  lemma WindowedPushdown(fold: CaseFold, p: Plan, rows: seq<Json>, q: Query, all: seq<DbRow>, out: seq<DbRow>,
                         st: Statement)
    requires SameKeys(q.orderBy, Mapped(all, Reading(p)), Ordered(fold, rows, q))
    requires multiset(Mapped(all, Reading(p))) == multiset(Ordered(fold, rows, q))
    requires st.sql.windowed <==> q.limit.Some? || q.offset.Some?
    requires st.sql.windowed ==>
              Windows(st, q) && out == SqlWindow(all, st.params[|st.params| - 2], st.params[|st.params| - 1])
    requires !st.sql.windowed ==> out == all
    ensures SameKeys(q.orderBy, Mapped(out, Reading(p)), ApplyQuery(fold, rows, q))
    ensures multiset(Mapped(out, Reading(p))) <= multiset(Ordered(fold, rows, q))
    ensures q.limit.None? && q.offset.None? ==> multiset(Mapped(out, Reading(p))) == multiset(ApplyQuery(fold, rows, q))
  {
    var offset := if q.offset.Some? then q.offset.value else 0;
    var js := Ordered(fold, rows, q);
    if st.sql.windowed {
      BoundWindow(all, q);
    }
    assert out == Window(all, offset, q.limit);
    WindowMapped(all, Reading(p), offset, q.limit);
    WindowKeys(q.orderBy, Mapped(all, Reading(p)), js, offset, q.limit);
    WindowPart(Mapped(all, Reading(p)), offset, q.limit);
    assert ApplyQuery(fold, rows, q) == Window(js, offset, q.limit);
    assert q.limit.None? && q.offset.None? ==> Window(js, offset, q.limit) == js;
  }

  /** The filter is safe to narrow by: no row is asked the length of an array through a dot path. */
  predicate NarrowsSafely(filter: Option<Expr>, rows: seq<Json>) {
    filter.Some? ==> forall i :: 0 <= i < |rows| ==> LengthFree(filter.value, rows[i])
  }

  lemma UsableIsCompiled(p: Plan, filter: Option<Expr>, maxParams: Option<nat>)
    requires filter.Some? && UsableWhere(p, filter, maxParams).Some?
    ensures UsableWhere(p, filter, maxParams) == Compile(p, filter.value)
    ensures |Compile(p, filter.value).value.params| == Params(Compile(p, filter.value).value.cond)
  {
    CompileBinds(p, filter.value);
  }

  lemma InexactBinds(p: Plan, q: Query, maxParams: Option<nat>)
    requires !SnapshotSql(p, q, maxParams).exact
    ensures Binds(SnapshotSql(p, q, maxParams)) && !SnapshotSql(p, q, maxParams).sql.windowed
  {
    if q.filter.Some? && UsableWhere(p, q.filter, maxParams).Some? {
      UsableIsCompiled(p, q.filter, maxParams);
    }
  }

  /** A narrowed scan keeps every row the filter passes. */
  lemma NarrowedKeeps(fold: CaseFold, p: Plan, q: Query, maxParams: Option<nat>, row: Json)
    requires Fits(p, row) && !SnapshotSql(p, q, maxParams).exact
    requires q.filter.Some? ==> LengthFree(q.filter.value, row)
    requires MatchesFilter(fold, q.filter, row)
    ensures Binds(SnapshotSql(p, q, maxParams))
    ensures var st := SnapshotSql(p, q, maxParams); WhereTrue(st.sql.where, WhereParams(st))(Storing(p)(row))
  {
    InexactBinds(p, q, maxParams);
    if q.filter.Some? && UsableWhere(p, q.filter, maxParams).Some? {
      UsableIsCompiled(p, q.filter, maxParams);
      CompileMeans(fold, p, IdOf(p, row), row, q.filter.value);
    }
  }

  /** What a narrowing statement's rows read back as, in the table's order. */
  function Narrowed(p: Plan, rows: seq<Json>, st: Statement): seq<Json>
    requires Binds(st)
  {
    Mapped(Filter(Mapped(rows, Storing(p)), WhereTrue(st.sql.where, WhereParams(st))), Reading(p))
  }

  lemma NarrowedIsFilter(p: Plan, rows: seq<Json>, st: Statement, keep: Json -> bool)
    requires AllFit(p, rows) && Binds(st)
    requires forall i :: 0 <= i < |rows| ==>
              keep(rows[i]) == WhereTrue(st.sql.where, WhereParams(st))(Storing(p)(rows[i]))
    ensures Narrowed(p, rows, st) == Filter(rows, keep)
  {
    FilterMapped(rows, Storing(p), WhereTrue(st.sql.where, WhereParams(st)), keep);
    FilterFits(p, rows, keep);
    ReadBack(p, Filter(rows, keep));
  }

  predicate Keeps(p: Plan, st: Statement, row: Json)
    requires Binds(st)
  {
    WhereTrue(st.sql.where, WhereParams(st))(Storing(p)(row))
  }

  /** The narrowed rows, filtered, are all rows, filtered. */
  lemma NarrowedFilters(fold: CaseFold, p: Plan, rows: seq<Json>, q: Query, maxParams: Option<nat>, st: Statement)
    requires AllFit(p, rows) && st == SnapshotSql(p, q, maxParams) && !st.exact && NarrowsSafely(q.filter, rows)
    ensures Binds(st)
    ensures Filter(Narrowed(p, rows, st), Passes(fold, q.filter)) == Filter(rows, Passes(fold, q.filter))
  {
    InexactBinds(p, q, maxParams);
    var keep: Json -> bool := r => Keeps(p, st, r);
    NarrowedIsFilter(p, rows, st, keep);
    forall r | r in rows && Passes(fold, q.filter)(r) ensures keep(r) {
      var i :| 0 <= i < |rows| && rows[i] == r;
      assert Fits(p, rows[i]);
      NarrowedKeeps(fold, p, q, maxParams, r);
    }
    FilterTwice(rows, keep, Passes(fold, q.filter));
  }

  /** In whatever order the rows come, the evaluator passes the same ones. */
  lemma OrderedPermuted(fold: CaseFold, got: seq<Json>, narrowed: seq<Json>, rows: seq<Json>, q: Query)
    requires multiset(got) == multiset(narrowed)
    requires Filter(narrowed, Passes(fold, q.filter)) == Filter(rows, Passes(fold, q.filter))
    ensures multiset(Ordered(fold, got, q)) == multiset(Ordered(fold, rows, q))
  {
    FilterOfPermutation(got, narrowed, Passes(fold, q.filter));
    SortPermutes(RowOrder(q.orderBy), Filter(got, Passes(fold, q.filter)));
    SortPermutes(RowOrder(q.orderBy), Filter(rows, Passes(fold, q.filter)));
  }

  /**
   * Inexact pushdown. A statement that only narrows, or scans the whole table when its filter needs too many
   * parameters, leaves the evaluator's answer what it is on all rows; and unwindowed, in whatever order the engine
   * returns the narrowed rows, it is the same rows.
   */
  lemma NarrowingPushdown(fold: CaseFold, p: Plan, rows: seq<Json>, q: Query, maxParams: Option<nat>, got: seq<Json>)
    requires AllFit(p, rows) && !SnapshotSql(p, q, maxParams).exact && NarrowsSafely(q.filter, rows)
    ensures Binds(SnapshotSql(p, q, maxParams))
    ensures ApplyQuery(fold, Narrowed(p, rows, SnapshotSql(p, q, maxParams)), q) == ApplyQuery(fold, rows, q)
    ensures multiset(got) == multiset(Narrowed(p, rows, SnapshotSql(p, q, maxParams))) ==>
              multiset(Ordered(fold, got, q)) == multiset(Ordered(fold, rows, q))
  {
    var st := SnapshotSql(p, q, maxParams);
    NarrowedFilters(fold, p, rows, q, maxParams, st);
    SameAnswer(fold, Narrowed(p, rows, st), rows, q);
    if multiset(got) == multiset(Narrowed(p, rows, st)) {
      OrderedPermuted(fold, got, Narrowed(p, rows, st), rows, q);
    }
  }

  /** A counting statement counts the rows the evaluator passes. */
  lemma CountPushdown(fold: CaseFold, p: Plan, rows: seq<Json>, filter: Option<Expr>, maxParams: Option<nat>)
    requires AllFit(p, rows) && CountSql(p, filter, maxParams).Some?
    ensures Binds(CountSql(p, filter, maxParams).value)
    ensures var st := CountSql(p, filter, maxParams).value;
            |Filter(Mapped(rows, Storing(p)), WhereTrue(st.sql.where, WhereParams(st)))| ==
              |Filter(rows, Passes(fold, filter))|
  {
    var st := CountSql(p, filter, maxParams).value;
    if filter.Some? {
      CompileBinds(p, filter.value);
      WhereKeeps(fold, p, rows, filter, Compile(p, filter.value).value, st.sql.where, st.params);
    } else {
      WhereKeeps(fold, p, rows, filter, TRUE, None, []);
    }
  }
}
