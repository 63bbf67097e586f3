/**
 * The store's reads: the statement's answer where it is exact, else the evaluator over what the statement narrowed to.
 */
module SqliteReads {
  import opened Options
  import opened Patterns
  import opened Sorting
  import opened Query
  import opened Sql
  import opened Plans
  import opened Compiler
  import opened CompilerSoundness
  import opened Pushdown
  import opened GroupedCount

  /** The rows `snapshot` returns, given the rows the engine answered its statement with. */
  function Served(fold: CaseFold, p: Plan, q: Query, out: seq<DbRow>): seq<Json> {
    var got := Mapped(out, Reading(p));
    if SnapshotSql(p, q, None).exact then got else ApplyQuery(fold, got, q)
  }

  /** An engine's answer to the snapshot statement, its order free where the statement leaves it free. */
  ghost predicate Engine(p: Plan, rows: seq<Json>, q: Query, all: seq<DbRow>, out: seq<DbRow>) {
    Binds(SnapshotSql(p, q, None)) && Answer(SnapshotSql(p, q, None), Mapped(rows, Storing(p)), all, out)
  }

  /** A query that only filters. */
  function Only(filter: Option<Expr>): Query {
    Query(filter, [], None, None)
  }

  lemma NarrowedAnswer(p: Plan, rows: seq<Json>, q: Query, all: seq<DbRow>, out: seq<DbRow>)
    requires Engine(p, rows, q, all, out) && !SnapshotSql(p, q, None).exact
    ensures multiset(Mapped(out, Reading(p))) == multiset(Narrowed(p, rows, SnapshotSql(p, q, None)))
  {
    var st := SnapshotSql(p, q, None);
    InexactBinds(p, q, None);
    MappedPermutation(out, Filter(Mapped(rows, Storing(p)), WhereTrue(st.sql.where, WhereParams(st))), Reading(p));
  }

  lemma InexactServes(fold: CaseFold, p: Plan, rows: seq<Json>, q: Query, all: seq<DbRow>, out: seq<DbRow>)
    requires AllFit(p, rows) && NarrowsSafely(q.filter, rows) && Engine(p, rows, q, all, out)
    requires !SnapshotSql(p, q, None).exact && q.limit.None? && q.offset.None?
    ensures multiset(Served(fold, p, q, out)) == multiset(Ordered(fold, rows, q))
  {
    var got := Mapped(out, Reading(p));
    NarrowedAnswer(p, rows, q, all, out);
    NarrowingPushdown(fold, p, rows, q, None, got);
    assert ApplyQuery(fold, got, q) == Ordered(fold, got, q);
  }

  /** Whatever the engine makes of the statement, a filtered snapshot is the rows the filter passes. */
  lemma SnapshotServes(fold: CaseFold, p: Plan, rows: seq<Json>, filter: Option<Expr>, all: seq<DbRow>, out: seq<DbRow>)
    requires AllFit(p, rows) && NarrowsSafely(filter, rows) && Engine(p, rows, Only(filter), all, out)
    ensures multiset(Served(fold, p, Only(filter), out)) == multiset(Filter(rows, Passes(fold, filter)))
  {
    var q := Only(filter);
    if SnapshotSql(p, q, None).exact {
      SnapshotPushdown(fold, p, rows, q, None, all, out);
      assert ApplyQuery(fold, rows, q) == Filter(rows, Passes(fold, filter));
    } else {
      InexactServes(fold, p, rows, q, all, out);
    }
  }

  /** Rows the evaluator sorts in another order of their own have the sort keys of those it sorts. */
  lemma ReorderedKeys(fold: CaseFold, p: Plan, got: seq<Json>, rows: seq<Json>, q: Query)
    requires AllFit(p, rows) && CompileOrder(p, q.orderBy).Some?
    requires multiset(Filter(got, Passes(fold, q.filter))) == multiset(Filter(rows, Passes(fold, q.filter)))
    ensures SameKeys(q.orderBy, Ordered(fold, got, q), Ordered(fold, rows, q))
    ensures multiset(Ordered(fold, got, q)) == multiset(Filter(rows, Passes(fold, q.filter)))
  {
    var kept, mine := Filter(rows, Passes(fold, q.filter)), Filter(got, Passes(fold, q.filter));
    FilterFits(p, rows, Passes(fold, q.filter));
    assert |multiset(mine)| == |multiset(kept)|;
    if q.orderBy != [] {
      SortPermutes(RowOrder(q.orderBy), mine);
      PermutedFits(p, kept, mine);
      PermutedFits(p, kept, Sort(RowOrder(q.orderBy), mine));
      SortedFits(p, q.orderBy, mine);
      SortedTie(p, q.orderBy, kept, Sort(RowOrder(q.orderBy), mine));
    }
  }

  lemma PermutedFits(p: Plan, a: seq<Json>, b: seq<Json>)
    requires AllFit(p, a) && multiset(a) == multiset(b)
    ensures AllFit(p, b)
  {
    forall i | 0 <= i < |b| ensures Fits(p, b[i]) {
      assert b[i] in multiset(b) && b[i] in multiset(a);
      var j :| 0 <= j < |a| && a[j] == b[i];
    }
  }

  lemma SortedFits(p: Plan, orderBy: seq<OrderBy>, s: seq<Json>)
    requires AllFit(p, s) && CompileOrder(p, orderBy).Some?
    ensures Sorted(RowOrder(orderBy), Sort(RowOrder(orderBy), s))
  {
    var ok: Json -> bool := r => r in s;
    forall r | ok(r) ensures Fits(p, r) {
      var i :| 0 <= i < |s| && s[i] == r;
    }
    OrderPreorder(p, orderBy, ok);
    SortSorts(RowOrder(orderBy), ok, s);
  }

  /**
   * Any snapshot ordered by planned columns, windowed or not, exact or fallen back, whatever order the engine answers
   * in: rows the filter passes, with the sort keys of the evaluator's answer place by place.
   */
  lemma OrderedServes(fold: CaseFold, p: Plan, rows: seq<Json>, q: Query, all: seq<DbRow>, out: seq<DbRow>)
    requires AllFit(p, rows) && NarrowsSafely(q.filter, rows) && Engine(p, rows, q, all, out)
    requires CompileOrder(p, q.orderBy).Some?
    ensures SameKeys(q.orderBy, Served(fold, p, q, out), ApplyQuery(fold, rows, q))
    ensures multiset(Served(fold, p, q, out)) <= multiset(Filter(rows, Passes(fold, q.filter)))
  {
    if SnapshotSql(p, q, None).exact {
      SnapshotPushdown(fold, p, rows, q, None, all, out);
    } else {
      var got, st := Mapped(out, Reading(p)), SnapshotSql(p, q, None);
      var offset := if q.offset.Some? then q.offset.value else 0;
      NarrowedAnswer(p, rows, q, all, out);
      NarrowedFilters(fold, p, rows, q, None, st);
      FilterOfPermutation(got, Narrowed(p, rows, st), Passes(fold, q.filter));
      ReorderedKeys(fold, p, got, rows, q);
      assert ApplyQuery(fold, got, q) == Window(Ordered(fold, got, q), offset, q.limit);
      assert ApplyQuery(fold, rows, q) == Window(Ordered(fold, rows, q), offset, q.limit);
      WindowKeys(q.orderBy, Ordered(fold, got, q), Ordered(fold, rows, q), offset, q.limit);
      WindowPart(Ordered(fold, got, q), offset, q.limit);
    }
  }

  /** `count` is the number of rows the filter passes, counted by SQL or over the snapshot. */
  lemma CountServes(fold: CaseFold, p: Plan, rows: seq<Json>, filter: Option<Expr>, all: seq<DbRow>, out: seq<DbRow>)
    requires AllFit(p, rows) && NarrowsSafely(filter, rows) && Engine(p, rows, Only(filter), all, out)
    ensures var n := |Filter(rows, Passes(fold, filter))|;
            match CountSql(p, filter, None)
            case Some(st) => Binds(st) &&
              |Filter(Mapped(rows, Storing(p)), WhereTrue(st.sql.where, WhereParams(st)))| == n
            case None => |Served(fold, p, Only(filter), out)| == n
  {
    if CountSql(p, filter, None).Some? {
      CountPushdown(fold, p, rows, filter, None);
    } else {
      SnapshotServes(fold, p, rows, filter, all, out);
      assert |multiset(Served(fold, p, Only(filter), out))| == |multiset(Filter(rows, Passes(fold, filter)))|;
    }
  }

  /** `countBy` is the evaluator's grouped count of the rows the filter passes, grouped by SQL or over the snapshot. */
  lemma CountByServes(fold: CaseFold, p: Plan, rows: seq<Json>, field: string, filter: Option<Expr>, all: seq<DbRow>,
                      out: seq<DbRow>)
    requires AllFit(p, rows) && DistinctIds(p, rows) && NarrowsSafely(filter, rows)
    requires Engine(p, rows, Only(filter), all, out)
    ensures var kept := Filter(rows, Passes(fold, filter));
            match CountBySql(p, field, filter, None)
            case Some(g) => GroupingBinds(g) && Agrees(p, g, Mapped(rows, Storing(p)), kept, field)
            case None => forall v :: CountOf(Served(fold, p, Only(filter), out), field, v) == CountOf(kept, field, v)
  {
    if CountBySql(p, field, filter, None).Some? {
      GroupedPushdown(fold, p, rows, field, filter, None);
    } else {
      SnapshotServes(fold, p, rows, filter, all, out);
      forall v ensures CountOf(Served(fold, p, Only(filter), out), field, v) ==
        CountOf(Filter(rows, Passes(fold, filter)), field, v) {
        CountsPermute(Served(fold, p, Only(filter), out), Filter(rows, Passes(fold, filter)), field, v);
      }
    }
  }
}
