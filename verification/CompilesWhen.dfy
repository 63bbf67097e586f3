/** When a filter compiles and when it does so exactly, said of its fields and values alone; so when SQL answers. */
module CompilesWhen {
  import opened Options
  import opened Patterns
  import opened Query
  import opened Sql
  import opened Plans
  import opened Compiler
  import opened Pushdown
  import opened GroupedCount

  // ---- where a field is ----

  /** A field that names a scalar column. */
  ghost predicate ColumnIs(p: Plan, field: string, c: Column) {
    !p.degenerate && c in p.columns && c.kind != JsonKind && c.name == field
  }

  ghost predicate InColumn(p: Plan, field: string) {
    exists c :: ColumnIs(p, field, c)
  }

  ghost predicate GoesOn(field: string, name: string) {
    |name| < |field| && field[..|name|] == name && field[|name|] == '.'
  }

  /** A JSON column itself, or a path under it. */
  ghost predicate Under(p: Plan, field: string, c: Column) {
    !p.degenerate && c in p.columns && c.kind == JsonKind && (field == c.name || GoesOn(field, c.name))
  }

  /** A path of identifiers into JSON: into the row, or under one of its JSON columns. */
  ghost predicate InJson(p: Plan, field: string) {
    || (p.degenerate && forall seg :: seg in Split(field) ==> IsIdent(seg))
    || (exists c :: Under(p, field, c) &&
          (field == c.name || forall seg :: seg in Split(field[|c.name| + 1..]) ==> IsIdent(seg)))
  }

  /** No row has it: no column is its first name, or only a scalar column with a path under it. */
  ghost predicate Nowhere(p: Plan, field: string) {
    && !p.degenerate
    && !InColumn(p, field)
    && forall c :: !Under(p, field, c)
  }

  lemma HeadIff(field: string, name: string, at: nat)
    requires '.' !in name && at == IndexOf(field, '.')
    ensures field[..at] == name <==> field == name || GoesOn(field, name)
    ensures field == name ==> at == |field|
    ensures GoesOn(field, name) ==> at == |name|
  {
    if field == name || GoesOn(field, name) {
      assert field[..|name|] == name;
      FirstAt(field, '.', |name|);
    }
  }

  lemma IdentUndotted(name: string)
    requires IsIdent(name)
    ensures '.' !in name
  {
  }

  /** A column's name is what a field has before its first dot exactly if the field is that name or goes on under it. */
  lemma FoundIff(p: Plan, field: string, c: Column)
    requires GoodPlan(p) && c in p.columns
    ensures Find(p.columns, field[..IndexOf(field, '.')]) == Some(c) <==> field == c.name || GoesOn(field, c.name)
    ensures field == c.name ==> IndexOf(field, '.') == |field|
    ensures field != c.name && GoesOn(field, c.name) ==> IndexOf(field, '.') == |c.name|
  {
    var at := IndexOf(field, '.');
    IdentUndotted(c.name);
    HeadIff(field, c.name, at);
    FindColumn(p.columns, field[..at]);
    FindIn(p.columns, c);
  }

  lemma ResolveIff(p: Plan, field: string)
    requires GoodPlan(p)
    ensures InColumn(p, field) <==> ResolveField(p, field).AtScalar?
    ensures forall c :: ColumnIs(p, field, c) ==> ResolveField(p, field) == AtScalar(c)
    ensures InJson(p, field) <==> ResolveField(p, field).AtJson?
    ensures Nowhere(p, field) <==> ResolveField(p, field).Absent?
  {
    if !p.degenerate {
      var at := IndexOf(field, '.');
      var found := Find(p.columns, field[..at]);
      FindColumn(p.columns, field[..at]);
      forall c | c in p.columns
        ensures found == Some(c) <==> field == c.name || GoesOn(field, c.name)
        ensures field == c.name ==> at == |field|
        ensures field != c.name && GoesOn(field, c.name) ==> at == |c.name|
      {
        FoundIff(p, field, c);
      }
      if found.None? {
        assert Nowhere(p, field);
      } else if found.value.kind == JsonKind {
        assert Under(p, field, found.value);
        ResolveJson(p, field, found.value, at);
      } else {
        assert ColumnIs(p, field, found.value) <==> at == |field|;
        assert forall c :: !Under(p, field, c);
      }
    }
  }

  lemma ResolveJson(p: Plan, field: string, c: Column, at: nat)
    requires !p.degenerate && c in p.columns && c.kind == JsonKind && Under(p, field, c)
    requires at == if field == c.name then |field| else |c.name|
    requires forall d :: Under(p, field, d) ==> d == c
    ensures InJson(p, field) <==>
            at == |field| || forall seg :: seg in Split(field[at + 1..]) ==> IsIdent(seg)
  {
  }

  // ---- when ----

  /** A filter that compiles to something: at least a superset. */
  ghost predicate Compiles(p: Plan, e: Expr) {
    match e
    case And(args) => args == [] || exists a :: a in args && Compiles(p, a)
    case Or(args) => forall a :: a in args ==> Compiles(p, a)
    case Not(arg) => CompilesExactly(p, arg)
    case Eq(f, _) => InColumn(p, f) || Nowhere(p, f) || InJson(p, f)
    case Neq(f, _) => InColumn(p, f) || Nowhere(p, f)
    case Range(_, f, v) => v == Null || InColumn(p, f) || Nowhere(p, f) || (InJson(p, f) && v.Num?)
    case In(f, vs) => vs == [] || InColumn(p, f) || Nowhere(p, f) || (InJson(p, f) && Null !in vs)
    case Like(f, _, _) => InColumn(p, f) || Nowhere(p, f)
    case Has(f, _) => '.' !in f && (InColumn(p, f) || Nowhere(p, f) || InJson(p, f))
  }

  /** A filter that compiles to what it means. */
  ghost predicate CompilesExactly(p: Plan, e: Expr) {
    match e
    case And(args) => forall a :: a in args ==> CompilesExactly(p, a)
    case Or(args) => forall a :: a in args ==> CompilesExactly(p, a)
    case Not(arg) => CompilesExactly(p, arg)
    case Eq(f, _) => InColumn(p, f) || Nowhere(p, f)
    case Neq(f, _) => InColumn(p, f) || Nowhere(p, f)
    case Range(_, f, v) => v == Null || InColumn(p, f) || Nowhere(p, f)
    case In(f, vs) => vs == [] || InColumn(p, f) || Nowhere(p, f)
    case Like(f, pattern, ci) =>
      Nowhere(p, f) || exists c ::
        ColumnIs(p, f, c) && (c.kind == TextKind ==>
          forall x :: x in pattern ==> x != '_' && (ci ==> x as int <= 0x7F || x as int >= 0x1_0000))
    case Has(f, _) => '.' !in f && (InColumn(p, f) || Nowhere(p, f) || InJson(p, f))
  }

  /** What gathering arguments comes to, argument by argument. */
  lemma {:induction false} GatheredWhen(p: Plan, args: seq<Expr>, isOr: bool, g: Gathered)
    requires g == CompileArgs(p, args, isOr)
    ensures g.Refused? <==> isOr && exists a :: a in args && Compile(p, a).None?
    ensures !g.Refused? ==> (g.parts == [] <==> forall a :: a in args ==> Compile(p, a).None?)
    ensures !g.Refused? ==>
              (g.exact <==> forall a :: a in args ==> Compile(p, a).Some? && Compile(p, a).value.exact)
    decreases |args|
  {
    if args != [] {
      var init, last := args[..|args| - 1], args[|args| - 1];
      GatheredWhen(p, init, isOr, CompileArgs(p, init, isOr));
      assert args == init + [last];
      assert last in args && forall a :: a in init ==> a in args;
      assert forall a :: a in args ==> a in init || a == last;
    }
  }

  lemma {:induction false} ArgsWhen(p: Plan, args: seq<Expr>)
    requires GoodPlan(p)
    ensures forall a :: a in args ==> (Compile(p, a).Some? <==> Compiles(p, a))
    ensures forall a :: a in args ==>
              (Compile(p, a).Some? && Compile(p, a).value.exact <==> CompilesExactly(p, a))
    decreases args
  {
    forall a | a in args
      ensures Compile(p, a).Some? <==> Compiles(p, a)
      ensures Compile(p, a).Some? && Compile(p, a).value.exact <==> CompilesExactly(p, a)
    {
      CompilesIff(p, a);
    }
  }

  /** The compiler gives a condition exactly for these filters, and an exact one exactly for those. */
  lemma {:induction false} CompilesIff(p: Plan, e: Expr)
    requires GoodPlan(p)
    ensures Compile(p, e).Some? <==> Compiles(p, e)
    ensures Compile(p, e).Some? && Compile(p, e).value.exact <==> CompilesExactly(p, e)
    decreases e
  {
    match e
    case And(args) =>
      ArgsWhen(p, args);
      GatheredWhen(p, args, false, CompileArgs(p, args, false));
    case Or(args) =>
      ArgsWhen(p, args);
      GatheredWhen(p, args, true, CompileArgs(p, args, true));
    case Not(arg) => CompilesIff(p, arg);
    case Like(f, _, _) => LikeWhen(p, e);
    case _ => ResolveIff(p, e.field);
  }

  lemma LikeWhen(p: Plan, e: Expr)
    requires GoodPlan(p) && e.Like?
    ensures Compile(p, e).Some? <==> Compiles(p, e)
    ensures Compile(p, e).Some? && Compile(p, e).value.exact <==> CompilesExactly(p, e)
  {
    ResolveIff(p, e.field);
  }

  // ---- statements ----

  /** A field SQL orders as the evaluator does. */
  ghost predicate Sortable(p: Plan, field: string) {
    exists c :: ColumnIs(p, field, c) && (c.kind == RealKind || c.kind == TextKind)
  }

  lemma {:induction false} OrderWhen(p: Plan, orderBy: seq<OrderBy>)
    requires GoodPlan(p)
    ensures CompileOrder(p, orderBy).Some? <==> forall o :: o in orderBy ==> Sortable(p, o.field)
  {
    if orderBy != [] {
      ResolveIff(p, orderBy[0].field);
      OrderWhen(p, orderBy[1..]);
      assert forall o :: o in orderBy <==> o == orderBy[0] || o in orderBy[1..];
    }
  }

  /** The parameters a filter's condition binds. */
  function ParamsOf(p: Plan, filter: Option<Expr>): nat {
    if filter.Some? && Compile(p, filter.value).Some? then |Compile(p, filter.value).value.params| else 0
  }

  ghost predicate Exactly(p: Plan, filter: Option<Expr>) {
    filter.Some? ==> CompilesExactly(p, filter.value)
  }

  /**
   * SQL answers a snapshot whole exactly where the filter compiles exactly, every sort field is a number or text column
   * and the parameters fit; else it still narrows by the filter wherever that compiles.
   */
  lemma SnapshotIff(p: Plan, q: Query, maxParams: Option<nat>, fits: bool)
    requires GoodPlan(p) && (fits <==> (maxParams.Some? ==> ParamsOf(p, q.filter) + 2 <= maxParams.value))
    ensures SnapshotSql(p, q, maxParams).exact <==>
            Exactly(p, q.filter) && fits && forall o :: o in q.orderBy ==> Sortable(p, o.field)
    ensures SnapshotSql(p, q, maxParams).sql.where.Some? <==>
            q.filter.Some? && Compiles(p, q.filter.value) && fits
  {
    OrderWhen(p, q.orderBy);
    if q.filter.Some? {
      CompilesIff(p, q.filter.value);
    }
  }

  /** SQL counts exactly where the filter compiles exactly and its parameters fit. */
  lemma CountIff(p: Plan, filter: Option<Expr>, maxParams: Option<nat>)
    requires GoodPlan(p)
    ensures CountSql(p, filter, maxParams).Some? <==>
            Exactly(p, filter) && (filter.Some? && maxParams.Some? ==> ParamsOf(p, filter) <= maxParams.value)
  {
    if filter.Some? {
      CompilesIff(p, filter.value);
    }
  }

  /** SQL groups where it could filter exactly and the field, with no path, is a column, a JSON column or no row's. */
  lemma CountByIff(p: Plan, field: string, filter: Option<Expr>, maxParams: Option<nat>)
    requires GoodPlan(p)
    ensures CountBySql(p, field, filter, maxParams).Some? <==>
            Exactly(p, filter) && (maxParams.Some? ==> ParamsOf(p, filter) + 2 <= maxParams.value) &&
            '.' !in field && (InColumn(p, field) || InJson(p, field) || Nowhere(p, field))
  {
    ResolveIff(p, field);
    if filter.Some? {
      CompilesIff(p, filter.value);
    }
  }
}
