/**
 * The SQL the compiler emits: conditions over one table row with positional parameters, under SQL's three-valued
 * logic, and the few JSON functions they call. A JSON text is kept as the value it stands for.
 */
module Sql {
  import opened Options
  import opened TextOrder
  import opened Patterns
  import opened Query

  /** A column's value, or a bound parameter. */
  datatype Cell = NullCell | NumCell(n: real) | TextCell(s: string) | JsonCell(v: Json)
  type DbRow = map<string, Cell>

  datatype Tri = True | False | Unknown

  function Truth(b: bool): Tri {
    if b then True else False
  }

  function TriNot(a: Tri): Tri {
    match a
    case True => False
    case False => True
    case Unknown => Unknown
  }

  function TriAnd(a: Tri, b: Tri): Tri {
    if a.False? || b.False? then False else if a.True? && b.True? then True else Unknown
  }

  function TriOr(a: Tri, b: Tri): Tri {
    if a.True? || b.True? then True else if a.False? && b.False? then False else Unknown
  }

  // ---- JSON functions ----

  function LabelEnd(q: string): (n: nat)
    ensures n <= |q|
  {
    if q == [] || q[0] == '.' || q[0] == '[' then 0 else 1 + LabelEnd(q[1..])
  }

  /** What a JSON path names, read after its `$`: object members only; the compiler emits no array index. */
  function JsonLookup(v: Json, p: string): Field
    decreases |p|
  {
    if p == [] then Some(v)
    else if p[0] != '.' then None
    else
      var q := p[1..];
      var n := LabelEnd(q);
      if v.Obj? && q[..n] in v.fields then JsonLookup(v.fields[q[..n]], q[n..]) else None
  }

  function AtPath(c: Cell, path: Cell): Field {
    if c.JsonCell? && path.TextCell? && path.s != [] && path.s[0] == '$' then JsonLookup(c.v, path.s[1..]) else None
  }

  /** `json_extract`: null for nothing and for null, 1 and 0 for booleans, JSON text for arrays and objects. */
  function Extracted(f: Field): Cell {
    if f.None? then NullCell
    else match f.value
      case Leaf(Null) => NullCell
      case Leaf(Bool(b)) => NumCell(if b then 1.0 else 0.0)
      case Leaf(Num(n)) => NumCell(n)
      case Leaf(Text(s)) => TextCell(s)
      case Arr(_) => JsonCell(f.value)
      case Obj(_) => JsonCell(f.value)
  }

  /** `json_type`, with integer and real taken together. */
  function JsonType(v: Json): string {
    match v
    case Leaf(Null) => "null"
    case Leaf(Bool(b)) => if b then "true" else "false"
    case Leaf(Num(_)) => "number"
    case Leaf(Text(_)) => "text"
    case Arr(_) => "array"
    case Obj(_) => "object"
  }

  // ---- comparison ----

  /** Numbers before text; text by its UTF-8 bytes; null with nothing. */
  function CompareCells(a: Cell, b: Cell): Option<int> {
    match (a, b)
    case (NumCell(x), NumCell(y)) => Some(if x < y then -1 else if x > y then 1 else 0)
    case (TextCell(x), TextCell(y)) => Some(Lex(Utf8(x), Utf8(y)))
    case (NumCell(_), TextCell(_)) => Some(-1)
    case (TextCell(_), NumCell(_)) => Some(1)
    case (NumCell(_), JsonCell(_)) => Some(-1)
    case (JsonCell(_), NumCell(_)) => Some(1)
    case (JsonCell(x), JsonCell(y)) => Some(if x == y then 0 else 1)
    case (TextCell(_), JsonCell(_)) => Some(-1)
    case (JsonCell(_), TextCell(_)) => Some(1)
    case _ => None
  }

  /** `=`, unknown with a null. */
  function Equal(a: Cell, b: Cell): Tri {
    if a.NullCell? || b.NullCell? then Unknown else Truth(a == b)
  }

  // ---- conditions ----

  /** `json_extract` takes its path from the next parameter. */
  datatype Operand = Col(name: string) | Param | Extract(name: string)

  /** The test a `json_each` element must pass; a value comes from a parameter. */
  datatype ElementTest = TypeIs(t: string) | NumberIs | TextIs

  datatype Cond =
    | Always(holds: bool)
    | All(parts: seq<Cond>)
    | Any(parts: seq<Cond>)
    | Negate(c: Cond)
    | IsSame(a: Operand, b: Operand)
    | IsNull(a: Operand)
    | Compared(cmp: Cmp, a: Operand, b: Operand)
    | OneOf(a: Operand, n: nat)
    | Pattern(a: Operand, ci: bool)
    | OrFalse(c: Cond)
    | TypeIsArray(name: string)
    | HasElement(name: string, test: ElementTest)

  function OperandParams(o: Operand): nat {
    if o.Col? then 0 else 1
  }

  function TestParams(t: ElementTest): nat {
    if t.TypeIs? then 0 else 1
  }

  /** How many parameters a condition binds, left to right. */
  function Params(c: Cond): nat {
    match c
    case Always(_) => 0
    case All(parts) => ParamsAll(parts)
    case Any(parts) => ParamsAll(parts)
    case Negate(d) => Params(d)
    case IsSame(a, b) => OperandParams(a) + OperandParams(b)
    case IsNull(a) => OperandParams(a)
    case Compared(_, a, b) => OperandParams(a) + OperandParams(b)
    case OneOf(a, n) => OperandParams(a) + n
    case Pattern(a, _) => OperandParams(a) + 1
    case OrFalse(d) => Params(d)
    case TypeIsArray(_) => 1
    case HasElement(_, test) => 1 + TestParams(test)
  }

  function ParamsAll(parts: seq<Cond>): nat {
    if parts == [] then 0 else ParamsAll(parts[..|parts| - 1]) + Params(parts[|parts| - 1])
  }

  function ColumnOf(row: DbRow, name: string): Cell {
    if name in row then row[name] else NullCell
  }

  function Value(o: Operand, ps: seq<Cell>, row: DbRow): Cell
    requires |ps| == OperandParams(o)
  {
    match o
    case Col(name) => ColumnOf(row, name)
    case Param => ps[0]
    case Extract(name) => Extracted(AtPath(ColumnOf(row, name), ps[0]))
  }

  function InList(a: Cell, ps: seq<Cell>): Tri {
    if ps == [] then False else TriOr(InList(a, ps[..|ps| - 1]), Equal(a, ps[|ps| - 1]))
  }

  predicate ElementPasses(test: ElementTest, ps: seq<Cell>, e: Json)
    requires |ps| == TestParams(test)
  {
    match test
    case TypeIs(t) => JsonType(e) == t
    case NumberIs => JsonType(e) == "number" && Equal(Extracted(Some(e)), ps[0]).True?
    case TextIs => JsonType(e) == "text" && Equal(Extracted(Some(e)), ps[0]).True?
  }

  /** The rows of `json_each` at a path: an array's elements, an object's members, a scalar itself. */
  function Each(f: Field): multiset<Json> {
    if f.None? then multiset{}
    else match f.value
      case Leaf(_) => multiset{f.value}
      case Arr(items) => multiset(items)
      case Obj(fields) => multiset(set k | k in fields :: fields[k])
  }

  function EvalSql(c: Cond, ps: seq<Cell>, row: DbRow): Tri
    requires |ps| == Params(c)
  {
    match c
    case Always(b) => Truth(b)
    case All(parts) => EvalAll(parts, ps, row)
    case Any(parts) => EvalAny(parts, ps, row)
    case Negate(d) => TriNot(EvalSql(d, ps, row))
    case IsSame(a, b) =>
      Truth(Value(a, ps[..OperandParams(a)], row) == Value(b, ps[OperandParams(a)..], row))
    case IsNull(a) => Truth(Value(a, ps, row).NullCell?)
    case Compared(cmp, a, b) =>
      var r := CompareCells(Value(a, ps[..OperandParams(a)], row), Value(b, ps[OperandParams(a)..], row));
      if r.None? then Unknown else Truth(Holds(cmp, r.value))
    case OneOf(a, _) => InList(Value(a, ps[..OperandParams(a)], row), ps[OperandParams(a)..])
    case Pattern(a, ci) =>
      var v, p := Value(a, ps[..OperandParams(a)], row), ps[OperandParams(a)];
      if v.NullCell? || p.NullCell? then Unknown else Truth(v.TextCell? && p.TextCell? && SqlMatches(ci, p.s, v.s))
    case OrFalse(d) => var r := EvalSql(d, ps, row); if r.Unknown? then False else r
    case TypeIsArray(name) =>
      var f := AtPath(ColumnOf(row, name), ps[0]);
      Truth(f.Some? && JsonType(f.value) == "array")
    case HasElement(name, test) =>
      Truth(exists e :: e in Each(AtPath(ColumnOf(row, name), ps[0])) && ElementPasses(test, ps[1..], e))
  }

  function EvalAll(parts: seq<Cond>, ps: seq<Cell>, row: DbRow): Tri
    requires |ps| == ParamsAll(parts)
  {
    if parts == [] then True
    else
      var n := ParamsAll(parts[..|parts| - 1]);
      TriAnd(EvalAll(parts[..|parts| - 1], ps[..n], row), EvalSql(parts[|parts| - 1], ps[n..], row))
  }

  function EvalAny(parts: seq<Cond>, ps: seq<Cell>, row: DbRow): Tri
    requires |ps| == ParamsAll(parts)
  {
    if parts == [] then False
    else
      var n := ParamsAll(parts[..|parts| - 1]);
      TriOr(EvalAny(parts[..|parts| - 1], ps[..n], row), EvalSql(parts[|parts| - 1], ps[n..], row))
  }
}
