/** Filters compiled to SQL: exactly where the evaluator's answer can be had in SQL, else to a superset. */
module Compiler {
  import opened Options
  import opened TextOrder
  import opened Patterns
  import opened Query
  import opened Sql
  import opened Plans

  // ---- where a field lives ----

  datatype FieldRef = AtScalar(col: Column) | AtJson(name: string, path: string) | Absent | Opaque

  /** A JSON path for dot-path segments SQLite reads as the evaluator does: identifiers only. */
  function JsonRef(name: string, segments: string): FieldRef {
    if forall seg :: seg in Split(segments) ==> IsIdent(seg) then AtJson(name, "$." + segments) else Opaque
  }

  function ResolveField(p: Plan, field: string): FieldRef {
    if p.degenerate then JsonRef(DATA_COLUMN, field)
    else
      var dot := IndexOf(field, '.');
      var found := Find(p.columns, field[..dot]);
      if found.None? then Absent
      else if found.value.kind == JsonKind then
        if dot == |field| then AtJson(found.value.name, "$") else JsonRef(found.value.name, field[dot + 1..])
      else if dot == |field| then AtScalar(found.value)
      else Absent
  }

  // ---- compilation ----

  datatype Compiled = Compiled(cond: Cond, params: seq<Cell>, exact: bool)

  const TRUE := Compiled(Always(true), [], true)
  const FALSE := Compiled(Always(false), [], true)

  predicate KindMatches(kind: Kind, v: Scalar) {
    (kind == TextKind && v.Text?) || (kind == RealKind && v.Num?) || (kind == BoolKind && v.Bool?)
  }

  /** Two-valued: a column that is never null already compares to true or false. */
  function TwoValued(c: Column, cond: Cond): Cond {
    if c.nullable || c.optional then OrFalse(cond) else cond
  }

  function ElementOf(v: Scalar): (ElementTest, seq<Cell>) {
    match v
    case Null => (TypeIs("null"), [])
    case Bool(b) => (TypeIs(if b then "true" else "false"), [])
    case Num(_) => (NumberIs, [Norm(v)])
    case Text(_) => (TextIs, [Norm(v)])
  }

  function Usable(kind: Kind, vs: seq<Scalar>): seq<Scalar> {
    if vs == [] then []
    else Usable(kind, vs[..|vs| - 1]) + if KindMatches(kind, vs[|vs| - 1]) then [vs[|vs| - 1]] else []
  }

  function Norms(vs: seq<Scalar>): (cells: seq<Cell>)
    ensures |cells| == |vs|
  {
    if vs == [] then [] else Norms(vs[..|vs| - 1]) + [Norm(vs[|vs| - 1])]
  }

  function EqScalar(c: Column, v: Scalar): Compiled {
    if v.Null? then (if c.nullable then Compiled(IsNull(Col(c.name)), [], true) else FALSE)
    else if !KindMatches(c.kind, v) then FALSE
    else Compiled(IsSame(Col(c.name), Param), [Norm(v)], true)
  }

  function EqJson(name: string, path: string, v: Scalar): Compiled {
    if v.Null? then Compiled(IsNull(Extract(name)), [TextCell(path)], false)
    else Compiled(IsSame(Extract(name), Param), [TextCell(path), Norm(v)], false)
  }

  function CompileEq(p: Plan, field: string, v: Scalar): Option<Compiled> {
    match ResolveField(p, field)
    case Absent => Some(FALSE)
    case Opaque => None
    case AtScalar(c) => Some(EqScalar(c, v))
    case AtJson(name, path) => Some(EqJson(name, path, v))
  }

  function NeqScalar(c: Column, v: Scalar): Compiled {
    if v.Null? then (if c.nullable then Compiled(Negate(IsNull(Col(c.name))), [], true) else TRUE)
    else if !KindMatches(c.kind, v) then TRUE
    else Compiled(Negate(IsSame(Col(c.name), Param)), [Norm(v)], true)
  }

  function CompileNeq(p: Plan, field: string, v: Scalar): Option<Compiled> {
    match ResolveField(p, field)
    case Absent => Some(TRUE)
    case AtScalar(c) => Some(NeqScalar(c, v))
    case _ => None
  }

  function RangeScalar(cmp: Cmp, c: Column, v: Scalar): Compiled {
    if (c.kind == RealKind && v.Num?) || (c.kind == TextKind && v.Text?) then
      Compiled(TwoValued(c, Compared(cmp, Col(c.name), Param)), [Norm(v)], true)
    else FALSE
  }

  function RangeJson(cmp: Cmp, name: string, path: string, v: Scalar): Compiled {
    Compiled(OrFalse(Compared(cmp, Extract(name), Param)), [TextCell(path), Norm(v)], false)
  }

  function CompileRange(p: Plan, cmp: Cmp, field: string, v: Scalar): Option<Compiled> {
    if v.Null? then Some(FALSE)
    else match ResolveField(p, field)
      case Absent => Some(FALSE)
      case Opaque => None
      case AtScalar(c) => Some(RangeScalar(cmp, c, v))
      case AtJson(name, path) => if v.Num? then Some(RangeJson(cmp, name, path, v)) else None
  }

  function InParts(c: Column, vs: seq<Scalar>): seq<Cond> {
    var usable := Usable(c.kind, vs);
    (if usable != [] then [TwoValued(c, OneOf(Col(c.name), |usable|))] else []) +
    (if Null in vs && c.nullable then [IsNull(Col(c.name))] else [])
  }

  function InScalar(c: Column, vs: seq<Scalar>): Compiled {
    var parts := InParts(c, vs);
    if parts == [] then FALSE else Compiled(Any(parts), Norms(Usable(c.kind, vs)), true)
  }

  function InJson(name: string, path: string, vs: seq<Scalar>): Compiled {
    Compiled(OrFalse(OneOf(Extract(name), |vs|)), [TextCell(path)] + Norms(vs), false)
  }

  function CompileIn(p: Plan, field: string, vs: seq<Scalar>): Option<Compiled> {
    if vs == [] then Some(FALSE)
    else match ResolveField(p, field)
      case Absent => Some(FALSE)
      case Opaque => None
      case AtScalar(c) => Some(InScalar(c, vs))
      case AtJson(name, path) => if Null in vs then None else Some(InJson(name, path, vs))
  }

  function LikeScalar(c: Column, pattern: string, ci: bool): Compiled {
    if c.kind != TextKind then FALSE
    else Compiled(TwoValued(c, Pattern(Col(c.name), ci)), [TextCell(Translate(pattern, ci))],
                  TranslatesExactly(pattern, ci))
  }

  function CompileLike(p: Plan, field: string, pattern: string, ci: bool): Option<Compiled> {
    match ResolveField(p, field)
    case Absent => Some(FALSE)
    case AtScalar(c) => Some(LikeScalar(c, pattern, ci))
    case _ => None
  }

  function HasJson(name: string, path: string, v: Scalar): Compiled {
    var (test, ps) := ElementOf(v);
    Compiled(All([TypeIsArray(name), HasElement(name, test)]), [TextCell(path), TextCell(path)] + ps, true)
  }

  function CompileHas(p: Plan, field: string, v: Scalar): Option<Compiled> {
    if '.' in field then None
    else match ResolveField(p, field)
      case Opaque => None
      case AtJson(name, path) => Some(HasJson(name, path, v))
      case _ => Some(FALSE)
  }

  /** What the loop over the arguments of an `and` or `or` has gathered. */
  datatype Gathered = Refused | Gathered(parts: seq<Cond>, params: seq<Cell>, exact: bool)

  function Gather(g: Gathered, c: Option<Compiled>, isOr: bool): Gathered {
    if g.Refused? then Refused
    else if c.None? then (if isOr then Refused else g.(exact := false))
    else Gathered(g.parts + [c.value.cond], g.params + c.value.params, g.exact && c.value.exact)
  }

  function Finish(g: Gathered, isOr: bool): Option<Compiled> {
    if g.Refused? || g.parts == [] then None
    else Some(Compiled(if isOr then Any(g.parts) else All(g.parts), g.params, g.exact))
  }

  /** A filter as SQL over a planned table, or `None` where not even a superset is safe. */
  function Compile(p: Plan, e: Expr): Option<Compiled>
    decreases e, 0
  {
    match e
    case And(args) => if args == [] then Some(TRUE) else Finish(CompileArgs(p, args, false), false)
    case Or(args) => if args == [] then Some(FALSE) else Finish(CompileArgs(p, args, true), true)
    case Not(arg) =>
      var c := Compile(p, arg);
      if c.Some? && c.value.exact then Some(Compiled(Negate(c.value.cond), c.value.params, true)) else None
    case Eq(f, v) => CompileEq(p, f, v)
    case Neq(f, v) => CompileNeq(p, f, v)
    case Range(cmp, f, v) => CompileRange(p, cmp, f, v)
    case In(f, vs) => CompileIn(p, f, vs)
    case Like(f, pattern, ci) => CompileLike(p, f, pattern, ci)
    case Has(f, v) => CompileHas(p, f, v)
  }

  function CompileArgs(p: Plan, args: seq<Expr>, isOr: bool): Gathered
    decreases args, 1
  {
    if args == [] then Gathered([], [], true)
    else Gather(CompileArgs(p, args[..|args| - 1], isOr), Compile(p, args[|args| - 1]), isOr)
  }

  lemma {:induction false} RefusedStays(p: Plan, args: seq<Expr>, isOr: bool, i: nat)
    requires i <= |args| && CompileArgs(p, args[..i], isOr).Refused?
    ensures CompileArgs(p, args, isOr).Refused?
    decreases |args| - i
  {
    if i < |args| {
      assert args[..i + 1][..i] == args[..i];
      RefusedStays(p, args, isOr, i + 1);
    } else {
      assert args[..i] == args;
    }
  }

  /** The compiler's loop over arguments: parameters in the order of their placeholders. */
  method CompileExpr(p: Plan, e: Expr) returns (r: Option<Compiled>)
    ensures r == Compile(p, e)
    decreases e
  {
    match e
    case Not(arg) =>
      var c := CompileExpr(p, arg);
      r := if c.Some? && c.value.exact then Some(Compiled(Negate(c.value.cond), c.value.params, true)) else None;
    case And(_) => r := CompileJunction(p, e);
    case Or(_) => r := CompileJunction(p, e);
    case _ => r := Compile(p, e);
  }

  method CompileJunction(p: Plan, e: Expr) returns (r: Option<Compiled>)
    requires e.And? || e.Or?
    ensures r == Compile(p, e)
    decreases e, 0
  {
    var isOr, args := e.Or?, e.args;
    if args == [] {
      return Some(if isOr then FALSE else TRUE);
    }
    var parts: seq<Cond>, params: seq<Cell>, exact := [], [], true;
    var i := 0;
    while i < |args|
      invariant 0 <= i <= |args|
      invariant CompileArgs(p, args[..i], isOr) == Gathered(parts, params, exact)
    {
      assert args[..i + 1][..i] == args[..i];
      var c := CompileExpr(p, args[i]);
      if c.None? {
        if isOr {
          RefusedStays(p, args, isOr, i + 1);
          return None;
        }
        exact := false;
      } else {
        exact := exact && c.value.exact;
        parts, params := parts + [c.value.cond], params + c.value.params;
      }
      i := i + 1;
    }
    assert args[..i] == args;
    if parts == [] {
      return None;
    }
    return Some(Compiled(if isOr then Any(parts) else All(parts), params, exact));
  }
}
